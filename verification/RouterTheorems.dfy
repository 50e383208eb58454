/** What the routing rules promise over whole runs: a usable first hop, a bounded table, exact
    ageing of every route, and loops that die out. */
module RouterTheorems {
  import opened Prelude
  import opened RouteQuality
  import opened Buckets
  import opened RouterTables
  import opened RouterInvariants

  // ---------- First hops ----------

  lemma {:induction false} GetRoutesIsABucket(t: Tables, keys: seq<string>, alias: string)
    requires forall k :: k in keys ==> k in t.routes
    ensures AliasMatch(t, keys, alias) == [] ||
            exists k :: k in t.routes && t.routes[k] == AliasMatch(t, keys, alias)
  {
    if keys != [] {
      assert keys[0] in t.routes;
      GetRoutesIsABucket(t, keys[1..], alias);
    }
  }

  lemma {:induction false} NoneGoodEnough(s: seq<RouteEntry>, minQuality: int)
    requires forall i :: 0 <= i < |s| ==> s[i].quality < minQuality
    ensures AtLeast(s, minQuality) == []
  {
    if s != [] {
      NoneGoodEnough(s[1..], minQuality);
    }
  }

  lemma ViaIsDirect(cfg: Config, t: Tables, now: real, r: RouteEntry)
    requires HopOk(t.neighbours, r)
    ensures IsDirectNeighbor(cfg, t, now, r.viaCall) && IsDirectNeighbor(cfg, t, now, Via(r))
  {
    UpperIdempotent(r.viaCall);
  }

  /** The next hop is always directly reachable: either the destination itself, or the neighbour
      of the best route if that route is good enough; the best-effort fallback is never taken. */
  lemma FirstHopIsReachable(cfg: Config, t: Tables, routable: string -> bool, now: real, dest: string, minQuality: int)
    requires Inv(cfg, t)
    ensures var hop := BestNeighborFor(cfg, t, routable, now, dest, minQuality);
            hop.Some? ==> IsDirectNeighbor(cfg, t, now, hop.value)
    ensures var hop := BestNeighborFor(cfg, t, routable, now, dest, minQuality);
            var routes := GetRoutes(t, dest);
            var d := if routes != [] then Upper(routes[0].destCall) else Upper(dest);
            hop == if routable(d) && IsDirectNeighbor(cfg, t, now, d) then Some(d)
                   else if routes != [] && routes[0].quality >= minQuality then Some(Via(routes[0]))
                   else None
  {
    hide Inv, Shaped, FirstHops, BucketOk, IsDirectNeighbor, GetRoutes, HopOk;
    var routes := GetRoutes(t, dest);
    if routes != [] {
      RoutesAreGood(cfg, t, dest);
      ViaIsDirect(cfg, t, now, routes[0]);
      if routes[0].quality < minQuality {
        NoneGoodEnough(routes, minQuality);
      }
    }
    UpperIdempotent(dest);
    if routes != [] {
      UpperIdempotent(routes[0].destCall);
    }
  }

  lemma RoutesAreGood(cfg: Config, t: Tables, dest: string)
    requires Inv(cfg, t) && GetRoutes(t, dest) != []
    ensures var routes := GetRoutes(t, dest); Sorted(routes) && HopOk(t.neighbours, routes[0])
  {
    var routes := GetRoutes(t, dest);
    GetRoutesIsABucket(t, t.order, Upper(dest));
    var k :| k in t.routes && t.routes[k] == routes;
    assert BucketOk(k, routes) && routes[0] in t.routes[k];
  }

  /** Hence on every run from empty tables, through all broadcasts, scans, prunes and crosslink
      changes, whoever is named as next hop can be reached directly. */
  lemma FirstHopOnEveryRun(cfg: Config, es: seq<Event>, routable: string -> bool, now: real, dest: string, minQuality: int)
    ensures var t := Exec(cfg, EMPTY, es);
      var hop := BestNeighborFor(cfg, t, routable, now, dest, minQuality);
      hop.Some? ==> IsDirectNeighbor(cfg, t, now, hop.value)
  {
    hide Inv, BestNeighborFor, IsDirectNeighbor, Exec, GetRoutes;
    RoutesGoThroughNeighbours(cfg, es);
    FirstHopIsReachable(cfg, Exec(cfg, EMPTY, es), routable, now, dest, minQuality);
  }

  // ---------- The destination cap ----------

  function Broadcasters(es: seq<Event>): set<string>
  {
    if es == [] then {}
    else Broadcasters(es[..|es| - 1]) +
         (match es[|es| - 1] case Nodes(f, _) => {Upper(f.sourceCall)} case _ => {})
  }

  lemma {:induction false} LearnAllCapped(cfg: Config, t: Tables, f: NodesFrame, q: byte, now: real,
                                          es: seq<NodeEntry>, heard: set<string>)
    requires |t.routes.Keys - heard| <= cfg.maxDestinations
    ensures |LearnAll(cfg, t, f, q, now, es).routes.Keys - heard| <= cfg.maxDestinations
    decreases |es|
  {
    if es != [] {
      var n := |es| - 1;
      LearnAllCapped(cfg, t, f, q, now, es[..n], heard);
      var u := LearnAll(cfg, t, f, q, now, es[..n]);
      var v := Learn(cfg, u, f, q, now, es[n]);
      var key := Upper(es[n].destCall);
      if v != u && key !in u.routes {
        SubsetCount(v.routes.Keys - heard, u.routes.Keys + {key});
        assert |u.routes.Keys| == |u.routes|;
      } else {
        assert v.routes.Keys == u.routes.Keys;
      }
    }
  }

  /** A broadcast adds its source and, below the cap, what it advertises. */
  lemma NodesCapped(cfg: Config, t: Tables, f: NodesFrame, now: real, before: set<string>)
    requires |t.routes.Keys - before| <= cfg.maxDestinations
    ensures |ProcessNodes(cfg, t, f, now).routes.Keys - (before + {Upper(f.sourceCall)})| <= cfg.maxDestinations
  {
    hide LearnAll, UpsertBucket, Heard;
    var after := before + {Upper(f.sourceCall)};
    var q := Heard(cfg, t, Upper(f.sourceCall), now).pathQuality;
    var direct := Upserted(NeighbourTouched(cfg, t, f, now), SourceRoute(cfg, f, q, now));
    SubsetCount(direct.routes.Keys - after, t.routes.Keys - before);
    SubsetCount(t.routes.Keys - after, t.routes.Keys - before);
    LearnAllCapped(cfg, direct, f, q, now, f.entries, after);
  }

  /** Nothing else adds a destination. */
  lemma OthersAddNothing(cfg: Config, t: Tables, e: Event)
    requires !e.Nodes?
    ensures Step(cfg, t, e).routes.Keys <= t.routes.Keys
  {
    hide Swept, UseCount;
  }

  /** Destinations that never broadcast to us number at most the configured maximum. */
  lemma {:induction false} HearsayIsCapped(cfg: Config, es: seq<Event>)
    ensures |Exec(cfg, EMPTY, es).routes.Keys - Broadcasters(es)| <= cfg.maxDestinations
  {
    if es == [] {
      assert EMPTY.routes.Keys - Broadcasters(es) == {};
    } else {
      hide ProcessNodes, Decayed, SweptTables, CrosslinkNoted;
      var init, e := es[..|es| - 1], es[|es| - 1];
      HearsayIsCapped(cfg, init);
      var t := Exec(cfg, EMPTY, init);
      if e.Nodes? {
        NodesCapped(cfg, t, e.frame, e.now, Broadcasters(init));
      } else {
        OthersAddNothing(cfg, t, e);
        SubsetCount(Exec(cfg, EMPTY, es).routes.Keys - Broadcasters(es), t.routes.Keys - Broadcasters(init));
      }
    }
  }

  // ---------- Where each route of a state comes from ----------

  /** The entry states a usable way to `key`. */
  predicate Names(cfg: Config, e: NodeEntry, q: byte, key: string)
  {
    Upper(e.destCall) == key && HopQuality(cfg, e, q) >= cfg.worstQuality
  }

  predicate Told(cfg: Config, es: seq<NodeEntry>, q: byte, key: string)
  {
    exists e :: e in es && Names(cfg, e, q, key)
  }

  /** The event sets afresh the route to `key` via `v`. */
  predicate Refreshes(cfg: Config, t: Tables, ev: Event, key: string, v: string)
  {
    && ev.Nodes? && Upper(ev.frame.sourceCall) == v && cfg.worstQuality > 0
    && var q := Heard(cfg, t, v, ev.now).pathQuality;
      q > 0 && (key == v || Told(cfg, ev.frame.entries, q, key))
  }

  predicate FreshAt(cfg: Config, now: real, r: RouteEntry)
  {
    r.obsCount == cfg.obsInitializer && r.lastSeen == now
  }

  /** The route an advertised entry describes: its destination, alias and next hop, at the quality
      that is left through our link to the advertiser. */
  predicate Describes(cfg: Config, e: NodeEntry, q: byte, r: RouteEntry)
  {
    && (r.destCall, r.alias, r.neighborCall) == (e.destCall, e.alias, e.neighborCall)
    && Upper(e.neighborCall) != cfg.call && r.quality == Compose(e.quality, q) >= cfg.worstQuality
  }

  predicate Comes(cfg: Config, f: NodesFrame, now: real, r: RouteEntry)
  {
    (r.viaCall, r.viaAlias) == (f.sourceCall, f.sourceAlias) && FreshAt(cfg, now, r)
  }

  /** Set afresh by one of the entries. */
  ghost predicate Taught(cfg: Config, f: NodesFrame, q: byte, now: real, es: seq<NodeEntry>, r: RouteEntry)
  {
    Comes(cfg, f, now, r) && exists e :: e in es && Describes(cfg, e, q, r)
  }

  /** The direct route to the broadcaster. */
  predicate IsDirectTo(f: NodesFrame, q: byte, r: RouteEntry)
  {
    (r.destCall, r.alias, r.neighborCall, r.quality) == (f.sourceCall, f.sourceAlias, f.sourceCall, q)
  }

  /** What a broadcast may set a route to. */
  ghost predicate SetBy(cfg: Config, t: Tables, f: NodesFrame, now: real, r: RouteEntry)
  {
    var q := Heard(cfg, t, Upper(f.sourceCall), now).pathQuality;
    Taught(cfg, f, q, now, f.entries, r) || (Comes(cfg, f, now, r) && IsDirectTo(f, q, r))
  }

  lemma UpsertedOrigin(t: Tables, e: RouteEntry, key: string, r: RouteEntry)
    requires Shaped(t) && r in Bucket(Upserted(t, e), key)
    ensures r == e || r in Bucket(t, key)
    ensures Upper(e.destCall) == key && Via(r) == Via(e) ==> r == e
    ensures Upper(e.destCall) != key ==> r in Bucket(t, key)
  {
    var k := Upper(e.destCall);
    UpsertOk(k, Bucket(t, k), e);
    hide UpsertBucket, BucketOk;
  }

  lemma LearnOrigin(cfg: Config, u: Tables, f: NodesFrame, q: byte, now: real, e: NodeEntry, key: string, r: RouteEntry)
    requires cfg.worstQuality > 0 && Shaped(u) && r in Bucket(Learn(cfg, u, f, q, now, e), key)
    ensures if Via(r) == Upper(f.sourceCall) && Names(cfg, e, q, key) then Comes(cfg, f, now, r) && Describes(cfg, e, q, r)
            else r in Bucket(u, key)
  {
    hide Shaped, Upserted, Compose;
    var route := IndirectRoute(cfg, f, q, now, e);
    if r in Bucket(Upserted(u, route), key) {
      UpsertedOrigin(u, route, key, r);
    }
  }

  lemma ToldSplit(cfg: Config, es: seq<NodeEntry>, q: byte, key: string)
    requires es != []
    ensures Told(cfg, es, q, key) <==> Told(cfg, es[..|es| - 1], q, key) || Names(cfg, es[|es| - 1], q, key)
  {
    hide Names;
    assert es == es[..|es| - 1] + [es[|es| - 1]];
  }

  lemma TaughtByMore(cfg: Config, f: NodesFrame, q: byte, now: real, es: seq<NodeEntry>, r: RouteEntry)
    requires es != [] && Taught(cfg, f, q, now, es[..|es| - 1], r)
    ensures Taught(cfg, f, q, now, es, r)
  {
    hide Describes;
    var e :| e in es[..|es| - 1] && Describes(cfg, e, q, r);
    assert e in es;
  }

  lemma {:induction false} LearnAllOrigin(cfg: Config, t: Tables, f: NodesFrame, q: byte, now: real,
                                          es: seq<NodeEntry>, key: string, r: RouteEntry)
    requires cfg.worstQuality > 0 && Shaped(t) && r in Bucket(LearnAll(cfg, t, f, q, now, es), key)
    ensures if Via(r) == Upper(f.sourceCall) && Told(cfg, es, q, key) then Taught(cfg, f, q, now, es, r)
            else r in Bucket(t, key)
    decreases |es|
  {
    if es == [] {
      assert !Told(cfg, es, q, key);
    } else {
      hide Shaped, Learn, Told, Names, Bucket, Comes, Describes;
      var n := |es| - 1;
      var u := LearnAll(cfg, t, f, q, now, es[..n]);
      LearnAllShaped(cfg, t, f, q, now, es[..n]);
      ToldSplit(cfg, es, q, key);
      LearnOrigin(cfg, u, f, q, now, es[n], key, r);
      if r in Bucket(u, key) {
        LearnAllOrigin(cfg, t, f, q, now, es[..n], key, r);
        if Taught(cfg, f, q, now, es[..n], r) {
          TaughtByMore(cfg, f, q, now, es, r);
        }
      }
      if Describes(cfg, es[n], q, r) && Comes(cfg, f, now, r) {
        assert es[n] in es;
      }
    }
  }

  /** What an event that does not refresh a route leaves of it. */
  function Aged(cfg: Config, ev: Event, r: RouteEntry): Option<RouteEntry>
  {
    match ev
    case Decay => if cfg.obsInitializer == 0 then Some(r) else Survivor(Scan, r)
    case PruneAt(cutoff) => Survivor(Prune(cutoff), r)
    case _ => Some(r)
  }

  lemma {:induction false} SweptOrigin(w: Sweep, s: seq<RouteEntry>, r: RouteEntry)
    ensures r in Swept(w, s) <==> exists x :: x in s && Survivor(w, x) == Some(r)
  {
    if s != [] {
      var n := |s| - 1;
      SweptOrigin(w, s[..n], r);
      assert s == s[..n] + [s[n]];
      hide Survivor;
      if Survivor(w, s[n]) == Some(r) {
        assert s[n] in s;
      } else {
        assert r in Swept(w, s) <==> r in Swept(w, s[..n]);
      }
    }
  }

  lemma SweptTablesOrigin(w: Sweep, t: Tables, key: string, r: RouteEntry)
    ensures r in Bucket(SweptTables(w, t), key) <==> exists x :: x in Bucket(t, key) && Survivor(w, x) == Some(r)
  {
    SweptOrigin(w, Bucket(t, key), r);
    hide Swept, Survivor;
  }

  lemma NodesOrigin(cfg: Config, t: Tables, f: NodesFrame, now: real, key: string, r: RouteEntry)
    requires Shaped(t) && r in Bucket(ProcessNodes(cfg, t, f, now), key)
    ensures if Refreshes(cfg, t, Nodes(f, now), key, Via(r)) then SetBy(cfg, t, f, now, r) else r in Bucket(t, key)
  {
    hide Shaped, LearnAll, Upserted, Told, Taught, Heard;
    var q := Heard(cfg, t, Upper(f.sourceCall), now).pathQuality;
    var touched := NeighbourTouched(cfg, t, f, now);
    if cfg.worstQuality > 0 && q > 0 {
      var source := SourceRoute(cfg, f, q, now);
      var direct := Upserted(touched, source);
      SameShape(t, touched);
      UpsertedShaped(touched, source);
      LearnAllOrigin(cfg, direct, f, q, now, f.entries, key, r);
      if r in Bucket(direct, key) {
        UpsertedOrigin(touched, source, key, r);
      }
    }
  }

  lemma SameShape(t: Tables, u: Tables)
    requires Shaped(t) && u.routes == t.routes && u.order == t.order
    ensures Shaped(u)
  {
  }

  /** Every route after an event was either set afresh by it, as the broadcast's rules say, or is
      what the event leaves of a route that was there before. */
  lemma RouteOrigin(cfg: Config, t: Tables, ev: Event, key: string, r: RouteEntry)
    requires Shaped(t) && r in Bucket(Step(cfg, t, ev), key)
    ensures if Refreshes(cfg, t, ev, key, Via(r)) then SetBy(cfg, t, ev.frame, ev.now, r)
            else exists x :: x in Bucket(t, key) && Aged(cfg, ev, x) == Some(r)
  {
    hide Shaped, ProcessNodes, Refreshes, SetBy, SweptTables;
    match ev
    case Nodes(f, now) =>
      NodesOrigin(cfg, t, f, now, key, r);
      assert r in Bucket(t, key) ==> Aged(cfg, ev, r) == Some(r);
    case Decay =>
      OnlyBroadcastsRefresh(cfg, t, ev, key, Via(r));
      SweptTablesOrigin(Scan, t, key, r);
    case PruneAt(cutoff) =>
      OnlyBroadcastsRefresh(cfg, t, ev, key, Via(r));
      SweptTablesOrigin(Prune(cutoff), t, key, r);
    case _ =>
      OnlyBroadcastsRefresh(cfg, t, ev, key, Via(r));
      assert r in Bucket(t, key) && Aged(cfg, ev, r) == Some(r);
  }

  lemma OnlyBroadcastsRefresh(cfg: Config, t: Tables, ev: Event, key: string, v: string)
    requires !ev.Nodes?
    ensures !Refreshes(cfg, t, ev, key, v)
  {
  }

  // ---------- The obsolescence count is exact ----------

  /** Scans since the last event that set the route to `key` via `v` afresh. */
  ghost function ScansSince(cfg: Config, es: seq<Event>, key: string, v: string): nat
  {
    if es == [] then 0
    else
      var init, e := es[..|es| - 1], es[|es| - 1];
      if Refreshes(cfg, Exec(cfg, EMPTY, init), e, key, v) then 0
      else ScansSince(cfg, init, key, v) + if e.Decay? then 1 else 0
  }

  /** What one event does to a count. */
  lemma AgedCount(cfg: Config, ev: Event, x: RouteEntry, r: RouteEntry)
    requires Aged(cfg, ev, x) == Some(r) && cfg.obsInitializer > 0 && x.obsCount > 0
    ensures r.obsCount == x.obsCount - (if ev.Decay? then 1 else 0) && r.obsCount > 0
    ensures Via(r) == Via(x)
  {
  }

  lemma ScansSinceStep(cfg: Config, es: seq<Event>, key: string, v: string)
    requires es != []
    ensures var init, e := es[..|es| - 1], es[|es| - 1];
      ScansSince(cfg, es, key, v) == if Refreshes(cfg, Exec(cfg, EMPTY, init), e, key, v) then 0
                                     else ScansSince(cfg, init, key, v) + if e.Decay? then 1 else 0
  {
  }

  /** In every run from empty tables, a route's count is the initial count less the scans since
      it was last heard, and never zero. */
  lemma {:induction false} CountIsExact(cfg: Config, es: seq<Event>, key: string, r: RouteEntry)
    requires cfg.obsInitializer > 0 && r in Bucket(Exec(cfg, EMPTY, es), key)
    ensures r.obsCount == cfg.obsInitializer - ScansSince(cfg, es, key, Via(r))
    ensures r.obsCount > 0
  {
    if es != [] {
      assert Shaped(EMPTY);
      hide Step, Refreshes, Shaped, Bucket, ScansSince, Aged;
      var init, e := es[..|es| - 1], es[|es| - 1];
      var t := Exec(cfg, EMPTY, init);
      BucketsStayShaped(cfg, EMPTY, init);
      RouteOrigin(cfg, t, e, key, r);
      ScansSinceStep(cfg, es, key, Via(r));
      if !Refreshes(cfg, t, e, key, Via(r)) {
        var x :| x in Bucket(t, key) && Aged(cfg, e, x) == Some(r);
        CountIsExact(cfg, init, key, x);
        AgedCount(cfg, e, x, r);
      }
    }
  }

  lemma OneRoutePerNeighbour(t: Tables, key: string, x: RouteEntry, y: RouteEntry)
    requires Shaped(t) && x in Bucket(t, key) && y in Bucket(t, key) && Via(x) == Via(y)
    ensures x == y
  {
    assert BucketOk(key, t.routes[key]);
  }

  lemma ScanLeaves(t: Tables, key: string, x: RouteEntry)
    requires Shaped(t) && x in Bucket(t, key)
    ensures var after := Bucket(SweptTables(Scan, t), key);
      match Survivor(Scan, x)
      case Some(y) => y in after
      case None => forall r :: r in after ==> Via(r) != Via(x)
  {
    hide Shaped, SweptTables;
    match Survivor(Scan, x) {
      case Some(y) => SweptTablesOrigin(Scan, t, key, y);
      case None =>
        forall r | r in Bucket(SweptTables(Scan, t), key) ensures Via(r) != Via(x) {
          SweptTablesOrigin(Scan, t, key, r);
          var y :| y in Bucket(t, key) && Survivor(Scan, y) == Some(r);
          if Via(r) == Via(x) {
            OneRoutePerNeighbour(t, key, x, y);
          }
        }
    }
  }

  lemma ExecSnoc(cfg: Config, t: Tables, es: seq<Event>, e: Event)
    ensures Exec(cfg, t, es + [e]) == Step(cfg, Exec(cfg, t, es), e)
  {
    assert (es + [e])[..|es|] == es;
  }

  /** A scan deletes a route exactly when it is the last the route was good for; every other
      route survives it, one lower. */
  lemma DeletedOnTheLastScan(cfg: Config, es: seq<Event>, key: string, x: RouteEntry)
    requires cfg.obsInitializer > 0 && x in Bucket(Exec(cfg, EMPTY, es), key)
    ensures var after := Bucket(Exec(cfg, EMPTY, es + [Decay]), key);
      if ScansSince(cfg, es, key, Via(x)) + 1 < cfg.obsInitializer
      then exists y :: y in after && SameRoute(y, x) && y.obsCount + 1 == x.obsCount
      else forall r :: r in after ==> Via(r) != Via(x)
  {
    var t := Exec(cfg, EMPTY, es);
    BucketsStayShaped(cfg, EMPTY, es);
    CountIsExact(cfg, es, key, x);
    ExecSnoc(cfg, EMPTY, es, Decay);
    ScanLeaves(t, key, x);
    hide ScansSince, SweptTables, Exec, Shaped, UseCount;
    assert Bucket(Step(cfg, t, Decay), key) == Bucket(SweptTables(Scan, t), key);
  }

  function Scans(es: seq<Event>): nat
  {
    if es == [] then 0 else Scans(es[..|es| - 1]) + if es[|es| - 1].Decay? then 1 else 0
  }

  /** No event of `later`, after `es`, sets the route afresh. */
  ghost predicate Unheard(cfg: Config, es: seq<Event>, later: seq<Event>, key: string, v: string)
  {
    forall i :: 0 <= i < |later| ==> !Refreshes(cfg, Exec(cfg, EMPTY, es + later[..i]), later[i], key, v)
  }

  lemma UnheardSplit(cfg: Config, es: seq<Event>, later: seq<Event>, key: string, v: string)
    requires later != [] && Unheard(cfg, es, later, key, v)
    ensures var n := |later| - 1;
      && Unheard(cfg, es, later[..n], key, v)
      && !Refreshes(cfg, Exec(cfg, EMPTY, es + later[..n]), later[n], key, v)
      && es + later == (es + later[..n]) + [later[n]]
  {
    hide Refreshes, Exec;
    var n := |later| - 1;
    forall i | 0 <= i < n ensures !Refreshes(cfg, Exec(cfg, EMPTY, es + later[..n][..i]), later[..n][i], key, v) {
      assert later[..n][..i] == later[..i];
    }
  }

  lemma {:induction false} UnheardCounts(cfg: Config, es: seq<Event>, later: seq<Event>, key: string, v: string)
    requires Unheard(cfg, es, later, key, v)
    ensures ScansSince(cfg, es + later, key, v) == ScansSince(cfg, es, key, v) + Scans(later)
  {
    hide Refreshes, Exec, Unheard;
    if later == [] {
      assert es + later == es;
    } else {
      var init := later[..|later| - 1];
      UnheardSplit(cfg, es, later, key, v);
      UnheardCounts(cfg, es, init, key, v);
      assert (es + later)[..|es + later| - 1] == es + init;
    }
  }

  ghost predicate NoRoute(t: Tables, key: string, v: string)
  {
    forall r :: r in Bucket(t, key) ==> Via(r) != v
  }

  /** A route that goes unheard is gone after as many scans as the initial count. */
  lemma UnheardRoutesExpire(cfg: Config, es: seq<Event>, later: seq<Event>, key: string, v: string)
    requires cfg.obsInitializer > 0 && Unheard(cfg, es, later, key, v) && Scans(later) >= cfg.obsInitializer
    ensures NoRoute(Exec(cfg, EMPTY, es + later), key, v)
  {
    hide Exec, Unheard, ScansSince;
    forall r | r in Bucket(Exec(cfg, EMPTY, es + later), key) ensures Via(r) != v {
      CountIsExact(cfg, es + later, key, r);
      if Via(r) == v {
        UnheardCounts(cfg, es, later, key, v);
      }
    }
  }

  // ---------- Loops ----------

  /** Every way to `key` that the broadcast states goes through us. */
  predicate LoopsBack(cfg: Config, f: NodesFrame, key: string)
  {
    && key != Upper(f.sourceCall)
    && forall e :: e in f.entries && Upper(e.destCall) == key ==> Upper(e.neighborCall) == cfg.call
  }

  lemma LoopIsNotLearned(cfg: Config, t: Tables, f: NodesFrame, now: real, key: string)
    requires LoopsBack(cfg, f, key)
    ensures !Refreshes(cfg, t, Nodes(f, now), key, Upper(f.sourceCall))
  {
  }

  /** While everything v says about `key` points back at us, a route to `key` via v is never
      created and never refreshed, and any old one is gone within the initial count of scans. */
  lemma LoopsDieOut(cfg: Config, es: seq<Event>, later: seq<Event>, key: string, v: string)
    requires cfg.obsInitializer > 0
    requires forall e :: e in later && e.Nodes? && Upper(e.frame.sourceCall) == v ==> LoopsBack(cfg, e.frame, key)
    ensures Unheard(cfg, es, later, key, v)
    ensures Scans(later) >= cfg.obsInitializer ==> NoRoute(Exec(cfg, EMPTY, es + later), key, v)
    ensures NoRoute(Exec(cfg, EMPTY, es), key, v) ==> NoRoute(Exec(cfg, EMPTY, es + later), key, v)
  {
    hide Exec, NoRoute;
    forall i | 0 <= i < |later| ensures !Refreshes(cfg, Exec(cfg, EMPTY, es + later[..i]), later[i], key, v) {
      var e := later[i];
      if e.Nodes? && Upper(e.frame.sourceCall) == v {
        LoopIsNotLearned(cfg, Exec(cfg, EMPTY, es + later[..i]), e.frame, e.now, key);
      }
    }
    if Scans(later) >= cfg.obsInitializer {
      UnheardRoutesExpire(cfg, es, later, key, v);
    }
    if NoRoute(Exec(cfg, EMPTY, es), key, v) {
      AbsentStaysAbsent(cfg, es, later, key, v);
    }
  }

  lemma NotCreated(cfg: Config, t: Tables, ev: Event, key: string, v: string)
    requires Shaped(t) && NoRoute(t, key, v) && !Refreshes(cfg, t, ev, key, v)
    ensures NoRoute(Step(cfg, t, ev), key, v)
  {
    hide Step, Shaped, Refreshes;
    forall r | r in Bucket(Step(cfg, t, ev), key) ensures Via(r) != v {
      RouteOrigin(cfg, t, ev, key, r);
    }
  }

  lemma {:induction false} AbsentStaysAbsent(cfg: Config, es: seq<Event>, later: seq<Event>, key: string, v: string)
    requires Unheard(cfg, es, later, key, v)
    requires NoRoute(Exec(cfg, EMPTY, es), key, v)
    ensures NoRoute(Exec(cfg, EMPTY, es + later), key, v)
  {
    assert Shaped(EMPTY);
    hide Refreshes, Exec, Unheard, Shaped, Step, NoRoute;
    if later == [] {
      assert es + later == es;
    } else {
      var init, e := later[..|later| - 1], later[|later| - 1];
      UnheardSplit(cfg, es, later, key, v);
      AbsentStaysAbsent(cfg, es, init, key, v);
      BucketsStayShaped(cfg, EMPTY, es + init);
      ExecSnoc(cfg, EMPTY, es + init, e);
      NotCreated(cfg, Exec(cfg, EMPTY, es + init), e, key, v);
    }
  }
}

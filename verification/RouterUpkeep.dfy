/** How the tables are kept: which routes a scan or a prune leaves, which neighbours stay listed and
    with what use count, and what hearing a neighbour does to its entry. */
module RouterUpkeep {
  import opened Prelude
  import opened Buckets
  import opened RouterTables
  import opened RouterInvariants
  import opened RouterTheorems

  // ---------- Routes ----------

  /** A scan deletes the routes whose count is 1, lowers every other by one, and leaves the locked
      ones, of count 0, alone. */
  lemma ScanLeavesExactly(t: Tables, key: string, r: RouteEntry)
    ensures r in Bucket(SweptTables(Scan, t), key) <==>
      exists x :: x in Bucket(t, key) && x.obsCount != 1
                  && r == x.(obsCount := if x.obsCount == 0 then 0 else x.obsCount - 1)
  {
    SweptTablesOrigin(Scan, t, key, r);
    hide SweptTables;
    forall x ensures Survivor(Scan, x) == Some(r) <==>
      x.obsCount != 1 && r == x.(obsCount := if x.obsCount == 0 then 0 else x.obsCount - 1)
    {
    }
  }

  /** A prune leaves exactly the routes heard at the cutoff or later, as they are. */
  lemma PruneLeavesExactly(t: Tables, cutoff: real, key: string, r: RouteEntry)
    ensures r in Bucket(SweptTables(Prune(cutoff), t), key) <==> r in Bucket(t, key) && r.lastSeen >= cutoff
  {
    SweptTablesOrigin(Prune(cutoff), t, key, r);
  }

  /** a comes before b. */
  predicate Comes(s: seq<string>, a: string, b: string)
  {
    s != [] && ((s[0] == a && b in s[1..]) || Comes(s[1..], a, b))
  }

  lemma {:induction false} OnlyKeepsOrder(order: seq<string>, keys: set<string>, a: string, b: string)
    ensures b in Only(order, keys) <==> b in order && b in keys
    ensures Comes(Only(order, keys), a, b) <==> Comes(order, a, b) && a in keys && b in keys
  {
    if order != [] {
      var rest := Only(order[1..], keys);
      OnlyKeepsOrder(order[1..], keys, a, b);
      assert order == [order[0]] + order[1..];
      assert Only(order, keys) == if order[0] in keys then [order[0]] + rest else rest;
      assert ([order[0]] + rest)[1..] == rest;
      InOrder(order[1..], a, b);
    }
  }

  lemma {:induction false} InOrder(s: seq<string>, a: string, b: string)
    ensures Comes(s, a, b) ==> a in s && b in s
  {
    if s != [] {
      InOrder(s[1..], a, b);
    }
  }

  /** A sweep drops exactly the destinations that have no route left, and the others stay in the order
      in which they were first learned. */
  lemma SweepKeepsOrder(w: Sweep, t: Tables, a: string, b: string)
    requires Shaped(t)
    ensures a in SweptTables(w, t).routes <==> a in t.routes && exists x :: x in t.routes[a] && Survivor(w, x).Some?
    ensures Comes(SweptTables(w, t).order, a, b) <==>
      Comes(t.order, a, b) && a in SweptTables(w, t).routes && b in SweptTables(w, t).routes
  {
    OnlyKeepsOrder(t.order, SweptRoutes(w, t.routes).Keys, a, b);
    if a in t.routes {
      SweptNotEmpty(w, t.routes[a]);
    }
  }

  lemma SweptNotEmpty(w: Sweep, s: seq<RouteEntry>)
    ensures Swept(w, s) != [] <==> exists x :: x in s && Survivor(w, x).Some?
  {
    if Swept(w, s) != [] {
      SweptOrigin(w, s, Swept(w, s)[0]);
    }
    if x :| x in s && Survivor(w, x).Some? {
      SweptOrigin(w, s, Survivor(w, x).value);
    }
  }

  // ---------- Use counts ----------

  /** The places at which the table uses c as a first hop: destination and rank. */
  ghost function Users(t: Tables, c: string): set<(string, int)>
  {
    set k, i | k in t.routes && 0 <= i < |t.routes[k]| && Upper(t.routes[k][i].viaCall) == c :: (k, i)
  }

  ghost function RanksVia(s: seq<RouteEntry>, c: string): set<int>
  {
    set i | 0 <= i < |s| && Upper(s[i].viaCall) == c
  }

  lemma {:induction false} CountIsRanks(s: seq<RouteEntry>, c: string)
    ensures CountVia(s, c) == |RanksVia(s, c)|
  {
    if s == [] {
      assert RanksVia(s, c) == {};
    } else {
      var n := |s| - 1;
      CountIsRanks(s[..n], c);
      var fewer := RanksVia(s[..n], c);
      assert RanksVia(s, c) == if Via(s[n]) == c then fewer + {n} else fewer;
    }
  }

  ghost function UsersAt(t: Tables, keys: seq<string>, c: string): set<(string, int)>
  {
    set k, i | k in keys && 0 <= i < |Bucket(t, k)| && Upper(Bucket(t, k)[i].viaCall) == c :: (k, i)
  }

  ghost function Paired(k: string, ranks: set<int>): set<(string, int)> { set i | i in ranks :: (k, i) }

  lemma SomeOf<T>(s: set<T>) returns (x: T)
    requires s != {}
    ensures x in s
  {
    x :| x in s;
  }

  lemma {:induction false} PairedSize(k: string, ranks: set<int>)
    ensures |Paired(k, ranks)| == |ranks|
    decreases |ranks|
  {
    if ranks == {} {
      assert Paired(k, ranks) == {};
    } else {
      var i := SomeOf(ranks);
      PairedSize(k, ranks - {i});
      assert Paired(k, ranks) == Paired(k, ranks - {i}) + {(k, i)};
    }
  }

  lemma {:induction false} UseCountIsUsersAt(t: Tables, keys: seq<string>, c: string)
    requires NoDoubles(keys)
    ensures UseCount(t, keys, c) == |UsersAt(t, keys, c)|
  {
    if keys == [] {
      assert UsersAt(t, keys, c) == {};
    } else {
      var n := |keys| - 1;
      var k, b := keys[n], Bucket(t, keys[n]);
      UseCountIsUsersAt(t, keys[..n], c);
      CountIsRanks(b, c);
      PairedSize(k, RanksVia(b, c));
      UsersSplit(t, keys, c);
    }
  }

  lemma UsersSplit(t: Tables, keys: seq<string>, c: string)
    requires NoDoubles(keys) && keys != []
    ensures var n := |keys| - 1;
      var last := Paired(keys[n], RanksVia(Bucket(t, keys[n]), c));
      UsersAt(t, keys, c) == UsersAt(t, keys[..n], c) + last && UsersAt(t, keys[..n], c) !! last
  {
    assert keys == keys[..|keys| - 1] + [keys[|keys| - 1]];
    hide Bucket;
  }

  /** The use count of a neighbour is the number of places that use it. */
  lemma UseCountIsUsers(t: Tables, c: string)
    requires Shaped(t)
    ensures UseCount(t, t.order, c) == |Users(t, c)|
  {
    UseCountIsUsersAt(t, t.order, c);
    assert UsersAt(t, t.order, c) == Users(t, c) by { hide BucketOk; }
  }

  lemma UsedIffUsers(t: Tables, c: string)
    ensures Users(t, c) != {} <==> exists k, r :: k in t.routes && r in t.routes[k] && Upper(r.viaCall) == c
  {
    if k, r :| k in t.routes && r in t.routes[k] && Upper(r.viaCall) == c {
      var i :| 0 <= i < |t.routes[k]| && t.routes[k][i] == r;
      assert (k, i) in Users(t, c);
    }
    if Users(t, c) != {} {
      var p :| p in Users(t, c);
      assert t.routes[p.0][p.1] in t.routes[p.0];
    }
  }

  // ---------- Who stays a neighbour ----------

  /** Some route of t goes through c. */
  ghost predicate Used(t: Tables, c: string)
  {
    exists k, r :: k in t.routes && r in t.routes[k] && Upper(r.viaCall) == c
  }

  /** Bringing the neighbour list in line: a neighbour stays if and only if a route uses it, it is
      locked, or its crosslink is up; and its use count is the number of places that use it. */
  lemma ReconciledIff(t: Tables, c: string)
    requires Shaped(t)
    ensures var u := Reconciled(t);
      && u == t.(neighbours := u.neighbours)
      && (c in u.neighbours <==> c in t.neighbours && (Used(t, c) || t.neighbours[c].locked || c in t.crosslinks))
      && (c in u.neighbours ==> u.neighbours[c] == t.neighbours[c].(useCount := |Users(t, c)|))
  {
    UseCountIsUsers(t, c);
    UsedIffUsers(t, c);
    hide Users, UseCount;
  }

  /** After an obsolescence scan a neighbour is listed if and only if it was, and some route through
      it outlives the scan, or it is locked, or its crosslink is up. */
  lemma NeighbourOutlivesScanIff(cfg: Config, t: Tables, c: string)
    requires Shaped(t) && cfg.obsInitializer > 0
    ensures var u := Decayed(cfg, t);
      && (c in u.neighbours <==>
            c in t.neighbours &&
            ((exists k, x :: k in t.routes && x in t.routes[k] && x.obsCount != 1 && Upper(x.viaCall) == c)
             || t.neighbours[c].locked || c in t.crosslinks))
      && (c in u.neighbours ==> u.neighbours[c] == t.neighbours[c].(useCount := |Users(u, c)|))
      && u.crosslinks == t.crosslinks && u.heardDirect == t.heardDirect
  {
    var s := SweptTables(Scan, t);
    SweptShaped(Scan, t);
    ReconciledIff(s, c);
    ScanUses(t, c);
    SameUsers(s, Reconciled(s), c);
    hide Shaped, SweptTables, Reconciled, Users, Used;
    assert s.neighbours == t.neighbours && s.crosslinks == t.crosslinks && s.heardDirect == t.heardDirect by { SweepKeepsRest(Scan, t); }
  }

  lemma SweepKeepsRest(w: Sweep, t: Tables)
    ensures var s := SweptTables(w, t); s == t.(routes := s.routes, order := s.order)
  {
  }

  lemma SameUsers(s: Tables, u: Tables, c: string)
    requires u.routes == s.routes
    ensures Users(u, c) == Users(s, c)
  {
  }

  lemma ScanUses(t: Tables, c: string)
    ensures Used(SweptTables(Scan, t), c) <==>
      exists k, x :: k in t.routes && x in t.routes[k] && x.obsCount != 1 && Upper(x.viaCall) == c
  {
    var s := SweptTables(Scan, t);
    if k, r :| k in s.routes && r in s.routes[k] && Upper(r.viaCall) == c {
      ScanLeavesExactly(t, k, r);
      var x :| x in Bucket(t, k) && x.obsCount != 1 && r == x.(obsCount := if x.obsCount == 0 then 0 else x.obsCount - 1);
      assert k in t.routes && x in t.routes[k];
    }
    if k, x :| k in t.routes && x in t.routes[k] && x.obsCount != 1 && Upper(x.viaCall) == c {
      var r := x.(obsCount := if x.obsCount == 0 then 0 else x.obsCount - 1);
      assert x in Bucket(t, k);
      ScanLeavesExactly(t, k, r);
      assert r in s.routes[k];
    }
  }

  /** With the initial count at 0 routes are permanent, and a scan changes nothing. */
  lemma NoScanWhenPermanent(cfg: Config, t: Tables)
    requires cfg.obsInitializer == 0
    ensures Decayed(cfg, t) == t
  {
  }

  /** A crosslink that comes up is noted; when it goes down, its neighbour stays listed only for a
      route or a lock, and so does every other. */
  lemma CrosslinkNotedExactly(t: Tables, call: string, c: string)
    requires Shaped(t)
    ensures CrosslinkNoted(t, call, true) == t.(crosslinks := t.crosslinks + {Upper(call)})
    ensures var u := CrosslinkNoted(t, call, false);
      && u.routes == t.routes && u.order == t.order && u.heardDirect == t.heardDirect
      && u.crosslinks == t.crosslinks - {Upper(call)}
      && (c in u.neighbours <==>
            c in t.neighbours && (Used(t, c) || t.neighbours[c].locked || (c in t.crosslinks && c != Upper(call))))
      && (c in u.neighbours ==> u.neighbours[c] == t.neighbours[c].(useCount := |Users(t, c)|))
  {
    var s := t.(crosslinks := t.crosslinks - {Upper(call)});
    SameShape(t, s);
    ReconciledIff(s, c);
    SameUsers(t, s, c);
    hide Shaped, Users, Reconciled;
  }

  // ---------- Hearing a neighbour ----------

  /** A broadcast leaves in the neighbour list its source as heard now: at the quality configured for
      it, or the channel's if none is, unless the operator locked it; no other entry changes. With
      routing off nothing changes; with a quality of 0 no route does. */
  lemma NeighbourHeard(cfg: Config, t: Tables, f: NodesFrame, now: real)
    ensures cfg.worstQuality == 0 ==> ProcessNodes(cfg, t, f, now) == t
    ensures var u := ProcessNodes(cfg, t, f, now); var c := Upper(f.sourceCall);
      cfg.worstQuality > 0 ==>
        && c in u.neighbours && u.neighbours.Keys == t.neighbours.Keys + {c}
        && u.neighbours[c].lastHeard == now
        && (var locked := c in t.neighbours && t.neighbours[c].locked;
            && u.neighbours[c].locked == locked
            && u.neighbours[c].useCount == (if c in t.neighbours then t.neighbours[c].useCount else 0)
            && u.neighbours[c].pathQuality ==
               (if locked then t.neighbours[c].pathQuality
                else if c in cfg.neighbourQuality then cfg.neighbourQuality[c] else cfg.channelQuality))
        && (forall d :: d in t.neighbours && d != c ==> u.neighbours[d] == t.neighbours[d])
        && u.crosslinks == t.crosslinks && u.heardDirect == t.heardDirect
        && (u.neighbours[c].pathQuality == 0 ==> u.routes == t.routes && u.order == t.order)
  {
    var c := Upper(f.sourceCall);
    var q := Heard(cfg, t, c, now).pathQuality;
    var touched := NeighbourTouched(cfg, t, f, now);
    if cfg.worstQuality > 0 && q > 0 {
      LearnedRoutesOnly(cfg, Upserted(touched, SourceRoute(cfg, f, q, now)), f, q, now, f.entries);
    }
    hide LearnAll, UpsertBucket;
  }

  /** Learning entries changes the routes and nothing else. */
  lemma {:induction false} LearnedRoutesOnly(cfg: Config, t: Tables, f: NodesFrame, q: byte, now: real, es: seq<NodeEntry>)
    ensures var u := LearnAll(cfg, t, f, q, now, es); u == t.(routes := u.routes, order := u.order)
    decreases |es|
  {
    hide HopQuality, UpsertBucket;
    if es != [] {
      LearnedRoutesOnly(cfg, t, f, q, now, es[..|es| - 1]);
    }
  }

  /** A station heard on the air is noted under its call in upper case, and nothing else changes. */
  lemma HeardDirectNoted(cfg: Config, t: Tables, call: string, when: real)
    ensures var u := Step(cfg, t, NoteHeardDirect(call, when));
      && u == t.(heardDirect := u.heardDirect) && u.heardDirect.Keys == t.heardDirect.Keys + {Upper(call)}
      && u.heardDirect[Upper(call)] == when
      && forall c :: c in t.heardDirect && c != Upper(call) ==> u.heardDirect[c] == t.heardDirect[c]
  {
  }

  // ---------- A neighbour that falls silent ----------

  predicate SilentFrom(later: seq<Event>, c: string)
  {
    forall e :: e in later && e.Nodes? ==> Upper(e.frame.sourceCall) != c
  }

  /** From empty tables, on every run: a neighbour that is not heard for as many scans as the initial
      count is forgotten at the last of them, unless it is locked or its crosslink is up. */
  lemma SilentNeighbourIsForgotten(cfg: Config, es: seq<Event>, later: seq<Event>, c: string)
    requires cfg.obsInitializer > 0 && Scans(later) >= cfg.obsInitializer
    requires later != [] && later[|later| - 1] == Decay && SilentFrom(later, c)
    ensures var t := Exec(cfg, EMPTY, es + later);
      c in t.neighbours ==> t.neighbours[c].locked || c in t.crosslinks
  {
    hide Exec, NoRoute, Unheard;
    var n := |later| - 1;
    var t, u := Exec(cfg, EMPTY, es + later[..n]), Exec(cfg, EMPTY, es + later);
    assert es + later == (es + later[..n]) + [Decay];
    ExecSnoc(cfg, EMPTY, es + later[..n], Decay);
    BucketsStayShaped(cfg, EMPTY, es + later[..n]);
    NeighbourOutlivesScanIff(cfg, t, c);
    forall k ensures NoRoute(u, k, c) {
      NotRefreshed(cfg, es, later, k, c);
      UnheardRoutesExpire(cfg, es, later, k, c);
    }
    NoRouteNoUse(cfg, t, c);
  }

  lemma NotRefreshed(cfg: Config, es: seq<Event>, later: seq<Event>, key: string, c: string)
    requires SilentFrom(later, c)
    ensures Unheard(cfg, es, later, key, c)
  {
    hide Exec, Told;
  }

  lemma NoRouteNoUse(cfg: Config, t: Tables, c: string)
    requires cfg.obsInitializer > 0 && forall k :: NoRoute(Decayed(cfg, t), k, c)
    ensures !exists k, x :: k in t.routes && x in t.routes[k] && x.obsCount != 1 && Upper(x.viaCall) == c
  {
    ScanUses(t, c);
    var s := SweptTables(Scan, t);
    hide SweptTables;
    forall k, r | k in s.routes && r in s.routes[k] ensures Upper(r.viaCall) != c {
      assert NoRoute(Decayed(cfg, t), k, c);
      assert r in Bucket(Decayed(cfg, t), k);
    }
  }
}

/** What a transit node advertises: the best route to each destination, if heard recently
    enough, in callsign order, and what its neighbours then learn from it. */
module Advertising {
  import opened Prelude
  import opened RouteQuality
  import opened Buckets
  import opened RouterTables
  import opened RouterInvariants
  import opened RouterTheorems

  /** Locked routes (count 0) are always current. */
  predicate Advertisable(cfg: Config, b: seq<RouteEntry>)
  {
    b != [] && (b[0].obsCount == 0 || b[0].obsCount >= cfg.obsMinToBroadcast)
  }

  /** Our own next hop stands in for the upstream's. */
  function Entry(r: RouteEntry): NodeEntry
  {
    NodeEntry(r.destCall, r.alias, r.viaCall, r.quality)
  }

  function Gathered(cfg: Config, t: Tables, keys: seq<string>): seq<NodeEntry>
  {
    if keys == [] then []
    else
      var n := |keys| - 1;
      var b := Bucket(t, keys[n]);
      Gathered(cfg, t, keys[..n]) + if Advertisable(cfg, b) then [Entry(b[0])] else []
  }

  function Dest(e: NodeEntry): string { Upper(e.destCall) }

  function InsertByDest(e: NodeEntry, s: seq<NodeEntry>): seq<NodeEntry>
  {
    if s == [] || Leq(Dest(e), Dest(s[0])) then [e] + s else [s[0]] + InsertByDest(e, s[1..])
  }

  function SortByDest(s: seq<NodeEntry>): seq<NodeEntry>
  {
    if s == [] then [] else InsertByDest(s[0], SortByDest(s[1..]))
  }

  function NodesEntries(cfg: Config, t: Tables): seq<NodeEntry>
  {
    SortByDest(Gathered(cfg, t, t.order))
  }

  // ---------- The sorted list is the gathered one, in order ----------

  predicate InDestOrder(s: seq<NodeEntry>)
  {
    forall i, j :: 0 <= i < j < |s| ==> Leq(Dest(s[i]), Dest(s[j]))
  }

  lemma {:induction false} InsertByDestKeeps(e: NodeEntry, s: seq<NodeEntry>)
    ensures multiset(InsertByDest(e, s)) == multiset(s) + multiset{e}
    ensures InDestOrder(s) ==> InDestOrder(InsertByDest(e, s))
  {
    if s != [] && !Leq(Dest(e), Dest(s[0])) {
      InsertByDestKeeps(e, s[1..]);
      LeqTotal(Dest(e), Dest(s[0]));
      assert s == [s[0]] + s[1..];
      var u := InsertByDest(e, s[1..]);
      forall j | 0 <= j < |u| ensures InDestOrder(s) ==> Leq(Dest(s[0]), Dest(u[j])) {
        assert u[j] in multiset(u);
        assert u[j] == e || u[j] in s[1..];
      }
    } else if s != [] && InDestOrder(s) {
      forall j | 0 <= j < |s| ensures Leq(Dest(e), Dest(s[j])) {
        if j > 0 {
          LeqTransitive(Dest(e), Dest(s[0]), Dest(s[j]));
        }
      }
    }
  }

  lemma {:induction false} SortByDestSorts(s: seq<NodeEntry>)
    ensures multiset(SortByDest(s)) == multiset(s) && InDestOrder(SortByDest(s))
  {
    if s != [] {
      SortByDestSorts(s[1..]);
      InsertByDestKeeps(s[0], SortByDest(s[1..]));
      assert s == [s[0]] + s[1..];
    }
  }

  predicate DistinctDests(s: seq<NodeEntry>)
  {
    forall i, j :: 0 <= i < j < |s| ==> Dest(s[i]) != Dest(s[j])
  }

  lemma EntryIsKeyed(t: Tables, k: string)
    requires Shaped(t) && k in t.routes
    ensures t.routes[k] != [] && Dest(Entry(t.routes[k][0])) == k
  {
    assert BucketOk(k, t.routes[k]);
  }

  lemma LastIsNew(keys: seq<string>)
    requires keys != [] && NoDoubles(keys)
    ensures var n := |keys| - 1; keys == keys[..n] + [keys[n]] && keys[n] !in keys[..n] && NoDoubles(keys[..n])
  {
  }

  lemma {:induction false} GatheredFrom(cfg: Config, t: Tables, keys: seq<string>)
    requires Shaped(t) && NoDoubles(keys) && forall k :: k in keys ==> k in t.routes
    ensures forall e :: e in Gathered(cfg, t, keys) <==>
              Dest(e) in keys && Advertisable(cfg, t.routes[Dest(e)]) && e == Entry(t.routes[Dest(e)][0])
    ensures DistinctDests(Gathered(cfg, t, keys))
  {
    hide Shaped, NoDoubles, Advertisable, Upper;
    if keys != [] {
      var n := |keys| - 1;
      LastIsNew(keys);
      EntryIsKeyed(t, keys[n]);
      GatheredFrom(cfg, t, keys[..n]);
      var g := Gathered(cfg, t, keys[..n]);
      forall i | 0 <= i < |g| ensures Dest(g[i]) != keys[n] {
        assert g[i] in g;
      }
    }
  }

  lemma DistinctByCount(s: seq<NodeEntry>, u: seq<NodeEntry>)
    requires multiset(s) == multiset(u) && DistinctDests(s)
    ensures DistinctDests(u)
  {
    forall i, j | 0 <= i < j < |u| ensures Dest(u[i]) != Dest(u[j]) {
      if Dest(u[i]) == Dest(u[j]) {
        assert u[i] in multiset(s) && u[j] in multiset(s);
        assert u[i] in s && u[j] in s;
        assert u[i] == u[j];
        assert u == u[..i] + [u[i]] + u[i + 1..j] + [u[j]] + u[j + 1..];
        assert multiset(u)[u[i]] >= 2;
        OnceInDistinct(s, u[i]);
      }
    }
  }

  lemma {:induction false} OnceInDistinct(s: seq<NodeEntry>, e: NodeEntry)
    requires DistinctDests(s)
    ensures multiset(s)[e] <= 1
  {
    if s != [] {
      assert s == [s[0]] + s[1..];
      OnceInDistinct(s[1..], e);
      if e == s[0] {
        assert e !in s[1..];
      }
    }
  }

  /** The advertisement holds exactly the best route to each destination that is current, once
      each and in order, with our own next hop. */
  lemma AdvertisedExactly(cfg: Config, t: Tables)
    requires Shaped(t)
    ensures forall e :: e in NodesEntries(cfg, t) <==>
              Dest(e) in t.routes && Advertisable(cfg, t.routes[Dest(e)]) && e == Entry(t.routes[Dest(e)][0])
    ensures InDestOrder(NodesEntries(cfg, t)) && DistinctDests(NodesEntries(cfg, t))
  {
    var g := Gathered(cfg, t, t.order);
    GatheredFrom(cfg, t, t.order);
    SortByDestSorts(g);
    DistinctByCount(g, NodesEntries(cfg, t));
    assert forall e :: e in multiset(g) <==> e in g;
    assert forall e :: e in multiset(NodesEntries(cfg, t)) <==> e in NodesEntries(cfg, t);
    assert forall k :: k in t.order <==> k in t.routes;
    hide Shaped, Advertisable, NodesEntries, DistinctDests, InDestOrder, Gathered;
  }

  /** Field by field: an entry is advertised if and only if it carries the destination, the alias and the
      quality of some destination's best route, with the neighbour we would use as its next hop, and
      that route is locked or its count has not fallen below the gate. */
  lemma AdvertisedFields(cfg: Config, t: Tables, e: NodeEntry)
    requires Shaped(t)
    ensures e in NodesEntries(cfg, t) <==>
      exists k :: k in t.routes && t.routes[k] != [] &&
        var r := t.routes[k][0];
        && !(0 < r.obsCount < cfg.obsMinToBroadcast)
        && e.destCall == r.destCall && e.alias == r.alias && e.neighborCall == r.viaCall && e.quality == r.quality
  {
    AdvertisedExactly(cfg, t);
    if k :| k in t.routes && t.routes[k] != [] && (var r := t.routes[k][0];
         && !(0 < r.obsCount < cfg.obsMinToBroadcast)
         && e.destCall == r.destCall && e.alias == r.alias && e.neighborCall == r.viaCall && e.quality == r.quality) {
      assert BucketOk(k, t.routes[k]);
      assert Dest(e) == k;
    }
    hide NodesEntries, InDestOrder, DistinctDests;
  }

  /** Only what was heard within the last few scans is advertised. */
  lemma AdvertisedIsRecent(cfg: Config, es: seq<Event>, e: NodeEntry)
    requires cfg.obsInitializer > 0 && e in NodesEntries(cfg, Exec(cfg, EMPTY, es))
    ensures ScansSince(cfg, es, Dest(e), Upper(e.neighborCall)) <= cfg.obsInitializer - cfg.obsMinToBroadcast
  {
    var t := Exec(cfg, EMPTY, es);
    BucketsStayShaped(cfg, EMPTY, es);
    AdvertisedExactly(cfg, t);
    CountIsExact(cfg, es, Dest(e), t.routes[Dest(e)][0]);
    hide Exec, NodesEntries, ScansSince;
  }

  /** If our best route to `key` goes through y, what we advertise about `key` loops back at y:
      y neither creates nor refreshes a route to it through us. */
  lemma SplitHorizon(x: Config, tx: Tables, y: Config, key: string)
    requires Shaped(tx) && key in tx.routes && Via(tx.routes[key][0]) == y.call && key != Upper(x.call)
    ensures LoopsBack(y, NodesFrame(x.call, x.alias, NodesEntries(x, tx)), key)
  {
    AdvertisedExactly(x, tx);
  }
}

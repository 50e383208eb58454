/** The router as an object: its tables are updated in place, one entry at a time, and every
    method is shown to do exactly what the value-level operation of the same kind does. */
module Router {
  import opened Prelude
  import opened Buckets
  import opened RouterTables
  import opened RouterInvariants
  import opened Advertising
  import opened NodesCodec
  import opened NodesExchange

  /** Routes a sweep deletes. */
  function Dropped(w: Sweep, t: Tables, keys: seq<string>): nat
  {
    if keys == [] then 0
    else
      var b := Bucket(t, keys[|keys| - 1]);
      SweptFrom(w, b);
      Dropped(w, t, keys[..|keys| - 1]) + |b| - |Swept(w, b)|
  }

  /** What a received UI frame does to the tables. */
  function OnFrame(cfg: Config, t: Tables, routable: string -> bool, src: string, dest: string,
                   payload: seq<byte>, now: real): Tables
  {
    if Upper(dest) != "NODES" then t
    else match DecodeNodes(src, payload)
      case Some(f) => ProcessNodes(cfg, t, f.(entries := Sanitized(routable, f.entries)), now)
      case None => t
  }

  class NetromRouter {
    const cfg: Config
    var routes: map<string, seq<RouteEntry>>
    var order: seq<string>
    var neighbours: map<string, Neighbour>
    var crosslinks: set<string>
    var heardDirect: map<string, real>

    function View(): Tables
      reads this
    {
      Tables(routes, order, neighbours, crosslinks, heardDirect)
    }

    ghost predicate Valid()
      reads this
    {
      Shaped(View())
    }

    constructor (cfg: Config)
      ensures this.cfg == cfg && View() == EMPTY && Valid()
    {
      this.cfg := cfg;
      routes, order, neighbours, crosslinks, heardDirect := map[], [], map[], {}, map[];
    }

    // ---------- Learning ----------

    /** Replace the same-via entry or append, sort best first, and cut to three. */
    method PlaceInBucket(bucket: seq<RouteEntry>, entry: RouteEntry) returns (placed: seq<RouteEntry>, isNew: bool)
      ensures placed == UpsertBucket(bucket, entry)
      ensures isNew <==> forall r :: r in bucket ==> Via(r) != Via(entry)
    {
      hide SortDesc;
      var i := 0;
      while i < |bucket| && Upper(bucket[i].viaCall) != Upper(entry.viaCall)
        invariant i <= |bucket|
        invariant forall j :: 0 <= j < i ==> Via(bucket[j]) != Via(entry)
      {
        i := i + 1;
      }
      isNew := i == |bucket|;
      assert i == FindVia(bucket, Via(entry));
      placed := if isNew then bucket + [entry] else bucket[i := entry];
      placed := SortDesc(placed);
      if |placed| > MAX_ROUTES_PER_DEST {
        placed := placed[..MAX_ROUTES_PER_DEST];
      }
    }

    method UpsertRoute(entry: RouteEntry) returns (isNew: bool)
      requires Valid()
      modifies this`routes, this`order
      ensures Valid() && View() == Upserted(old(View()), entry)
      ensures isNew <==> forall r :: r in Bucket(old(View()), Upper(entry.destCall)) ==> Via(r) != Via(entry)
    {
      hide Shaped, UpsertBucket;
      ghost var was := View();
      UpsertedShaped(was, entry);
      var key := Upper(entry.destCall);
      if key !in routes {
        routes, order := routes[key := []], order + [key];
      }
      var placed, wasNew := PlaceInBucket(routes[key], entry);
      routes := routes[key := placed];
      assert routes == Upserted(was, entry).routes;
      isNew := wasNew;
    }

    method GetOrCreateNeighbour(call: string, when: real) returns (n: Neighbour)
      modifies this`neighbours
      ensures n == Heard(cfg, old(View()), Upper(call), when)
      ensures neighbours == old(neighbours)[Upper(call) := n]
    {
      var c := Upper(call);
      if c !in neighbours {
        n := Neighbour(DefaultPathQuality(cfg, c), 0, false, when);
      } else {
        n := neighbours[c].(lastHeard := when);
        if !n.locked {
          n := n.(pathQuality := DefaultPathQuality(cfg, c));
        }
      }
      neighbours := neighbours[c := n];
    }

    method ProcessBroadcast(f: NodesFrame, now: real)
      requires Valid()
      modifies this
      ensures Valid() && View() == ProcessNodes(cfg, old(View()), f, now)
    {
      hide Shaped, Upserted, HopQuality, Heard;
      if cfg.worstQuality == 0 {
        return;
      }
      TouchShaped(View(), f, now);
      var n := GetOrCreateNeighbour(f.sourceCall, now);
      var q := n.pathQuality;
      if q == 0 {
        return;
      }
      var _ := UpsertRoute(SourceRoute(cfg, f, q, now));
      ghost var direct := View();
      for i := 0 to |f.entries|
        invariant Valid() && View() == LearnAll(cfg, direct, f, q, now, f.entries[..i])
      {
        var e := f.entries[i];
        assert f.entries[..i + 1][..i] == f.entries[..i];
        var rq := HopQuality(cfg, e, q);
        if rq >= cfg.worstQuality && (Upper(e.destCall) in routes || |routes| < cfg.maxDestinations) {
          var _ := UpsertRoute(IndirectRoute(cfg, f, q, now, e));
        }
      }
      assert f.entries[..|f.entries|] == f.entries;
    }

    lemma TouchShaped(t: Tables, f: NodesFrame, now: real)
      requires Shaped(t)
      ensures Shaped(t.(neighbours := t.neighbours[Upper(f.sourceCall) := Heard(cfg, t, Upper(f.sourceCall), now)]))
    {
    }

    method SanitizeEntries(routable: string -> bool, f: NodesFrame) returns (clean: NodesFrame)
      ensures clean == f.(entries := Sanitized(routable, f.entries))
    {
      var kept: seq<NodeEntry> := [];
      ghost var all := Sanitized(routable, f.entries);
      assert f.entries[0..] == f.entries;
      for i := 0 to |f.entries|
        invariant kept + Sanitized(routable, f.entries[i..]) == all
      {
        assert f.entries[i..][1..] == f.entries[i + 1..];
        ghost var rest := Sanitized(routable, f.entries[i + 1..]);
        if routable(f.entries[i].destCall) {
          assert kept + ([f.entries[i]] + rest) == (kept + [f.entries[i]]) + rest;
          kept := kept + [f.entries[i]];
        } else {
          assert [] + rest == rest;
        }
      }
      assert kept == all;
      clean := f.(entries := kept);
    }

    method OnNetromFrame(routable: string -> bool, src: string, dest: string, payload: seq<byte>, now: real)
      requires Valid()
      modifies this
      ensures Valid() && View() == OnFrame(cfg, old(View()), routable, src, dest, payload, now)
    {
      if Upper(dest) == "NODES" {
        var frame := DecodeNodesBroadcast(src, payload);
        if frame.Some? {
          var clean := SanitizeEntries(routable, frame.value);
          ProcessBroadcast(clean, now);
        }
      }
    }

    // ---------- Ageing ----------

    lemma {:induction false} OnlyTwice(o: seq<string>, some: set<string>, fewer: set<string>)
      requires fewer <= some
      ensures Only(Only(o, some), fewer) == Only(o, fewer)
    {
      if o != [] {
        OnlyTwice(o[1..], some, fewer);
        var s := Only(o[1..], some);
        if o[0] in some {
          assert ([o[0]] + s)[1..] == s;
        } else {
          assert [] + s == s && o[0] !in fewer;
          assert [] + Only(o[1..], fewer) == Only(o[1..], fewer);
        }
      }
    }

    lemma {:induction false} OnlyAll(o: seq<string>, keys: set<string>)
      requires forall k :: k in o ==> k in keys
      ensures Only(o, keys) == o
    {
      if o != [] {
        OnlyAll(o[1..], keys);
      }
    }

    /** What survives of one bucket. */
    method SweepBucket(w: Sweep, bucket: seq<RouteEntry>) returns (kept: seq<RouteEntry>, dropped: nat)
      ensures kept == Swept(w, bucket) && dropped == |bucket| - |kept|
    {
      kept, dropped := [], 0;
      for i := 0 to |bucket|
        invariant kept == Swept(w, bucket[..i]) && dropped == i - |kept|
      {
        assert bucket[..i + 1][..i] == bucket[..i];
        match Survivor(w, bucket[i])
        case Some(r) => kept := kept + [r];
        case None => dropped := dropped + 1;
      }
      assert bucket[..|bucket|] == bucket;
    }

    lemma KeysAgree(t: Tables)
      requires Shaped(t)
      ensures NoDoubles(t.order) && forall k :: k in t.order <==> k in t.routes
    {
    }

    /** The tables once every bucket has been swept but the emptied ones are still listed. */
    ghost predicate HalfSwept(w: Sweep, was: map<string, seq<RouteEntry>>, now: map<string, seq<RouteEntry>>, done: seq<string>)
    {
      && now.Keys == was.Keys
      && forall k :: k in was ==>
        now[k] == if k in done && Swept(w, was[k]) != [] then Swept(w, was[k]) else was[k]
    }

    ghost predicate Emptied(w: Sweep, was: map<string, seq<RouteEntry>>, keys: seq<string>, done: seq<string>)
    {
      forall k :: k in keys <==> k in was && k in done && Swept(w, was[k]) == []
    }

    lemma SweepOne(w: Sweep, was: map<string, seq<RouteEntry>>, now: map<string, seq<RouteEntry>>,
                   keys: seq<string>, done: seq<string>, key: string)
      requires HalfSwept(w, was, now, done) && Emptied(w, was, keys, done) && key in was && key !in done
      ensures key in now && now[key] == was[key]
      ensures var kept := Swept(w, was[key]);
        if kept != [] then HalfSwept(w, was, now[key := kept], done + [key]) && Emptied(w, was, keys, done + [key])
        else HalfSwept(w, was, now, done + [key]) && Emptied(w, was, keys + [key], done + [key])
    {
      hide Swept;
    }

    lemma NothingSwept(w: Sweep, was: map<string, seq<RouteEntry>>)
      ensures HalfSwept(w, was, was, []) && Emptied(w, was, [], [])
    {
      hide Swept;
    }

    lemma SameKeys(w: Sweep, was: map<string, seq<RouteEntry>>, now: map<string, seq<RouteEntry>>, done: seq<string>)
      requires HalfSwept(w, was, now, done)
      ensures now.Keys == was.Keys
    {
    }

    lemma SweepDone(w: Sweep, was: map<string, seq<RouteEntry>>, now: map<string, seq<RouteEntry>>,
                    keys: seq<string>, done: seq<string>)
      requires HalfSwept(w, was, now, done) && Emptied(w, was, keys, done)
      requires forall k :: k in done <==> k in was
      ensures (map k | k in now && k !in keys :: now[k]) == SweptRoutes(w, was)
    {
      hide Swept;
    }

    lemma DroppedOne(w: Sweep, t: Tables, done: seq<string>, key: string)
      ensures |Swept(w, Bucket(t, key))| <= |Bucket(t, key)|
      ensures Dropped(w, t, done + [key]) == Dropped(w, t, done) + |Bucket(t, key)| - |Swept(w, Bucket(t, key))|
    {
      SweptFrom(w, Bucket(t, key));
      assert (done + [key])[..|done|] == done;
    }

    method SweepBuckets(w: Sweep) returns (emptyKeys: seq<string>, dropped: nat)
      requires Valid()
      modifies this`routes
      ensures HalfSwept(w, old(routes), routes, order) && Emptied(w, old(routes), emptyKeys, order)
      ensures dropped == Dropped(w, old(View()), order)
    {
      ghost var was := View();
      var keys := order;
      hide Shaped, Swept, NoDoubles, HalfSwept, Emptied, Dropped;
      KeysAgree(was);
      NothingSwept(w, routes);
      emptyKeys, dropped := [], 0;
      assert Dropped(w, was, []) == 0 by { DroppedNone(w, was); }
      for i := 0 to |keys|
        invariant HalfSwept(w, was.routes, routes, keys[..i])
        invariant Emptied(w, was.routes, emptyKeys, keys[..i])
        invariant dropped == Dropped(w, was, keys[..i])
      {
        var key := keys[i];
        NotYet(keys, i);
        assert keys[..i + 1] == keys[..i] + [key];
        assert key in keys;
        SweepOne(w, was.routes, routes, emptyKeys, keys[..i], key);
        DroppedOne(w, was, keys[..i], key);
        var kept, n := SweepBucket(w, routes[key]);
        if kept != [] {
          routes := routes[key := kept];
        } else {
          emptyKeys := emptyKeys + [key];
        }
        dropped := dropped + n;
      }
      assert keys[..|keys|] == keys;
    }

    lemma DroppedNone(w: Sweep, t: Tables)
      ensures Dropped(w, t, []) == 0
    {
    }

    method DeleteKeys(keys: seq<string>)
      requires forall k :: k in order ==> k in routes
      modifies this`routes, this`order
      ensures routes == map k | k in old(routes) && k !in keys :: old(routes)[k]
      ensures order == Only(old(order), routes.Keys)
    {
      OnlyAll(order, routes.Keys);
      for j := 0 to |keys|
        invariant routes == map k | k in old(routes) && k !in keys[..j] :: old(routes)[k]
        invariant order == Only(old(order), routes.Keys)
      {
        assert keys[..j + 1] == keys[..j] + [keys[j]];
        OnlyTwice(old(order), routes.Keys, (routes - {keys[j]}).Keys);
        routes := routes - {keys[j]};
        order := Only(order, routes.Keys);
      }
      assert keys[..|keys|] == keys;
    }

    /** Bucket by bucket; destinations that lose their last route are deleted at the end. */
    method SweepRoutes(w: Sweep) returns (dropped: nat)
      requires Valid()
      modifies this`routes, this`order
      ensures Valid() && View() == SweptTables(w, old(View()))
      ensures dropped == Dropped(w, old(View()), old(order))
    {
      ghost var was := View();
      hide Shaped, Swept, NoDoubles, Only, HalfSwept, Emptied, SweptRoutes, Dropped;
      KeysAgree(was);
      SweptShaped(w, was);
      var emptyKeys;
      emptyKeys, dropped := SweepBuckets(w);
      SweepDone(w, was.routes, routes, emptyKeys, order);
      assert routes.Keys == was.routes.Keys by { SameKeys(w, was.routes, routes, order); }
      DeleteKeys(emptyKeys);
    }

    lemma NotYet(o: seq<string>, i: nat)
      requires NoDoubles(o) && i < |o|
      ensures o[i] !in o[..i]
    {
    }

    method DecayObsolescence() returns (deleted: nat)
      requires Valid()
      modifies this
      ensures Valid() && View() == Decayed(cfg, old(View()))
      ensures deleted == if cfg.obsInitializer == 0 then 0 else Dropped(Scan, old(View()), old(order))
    {
      deleted := 0;
      if cfg.obsInitializer != 0 {
        deleted := SweepRoutes(Scan);
        ReconcileNeighbours();
      }
    }

    method PruneStaleRoutes(now: real) returns (pruned: nat)
      requires Valid()
      modifies this
      ensures Valid() && View() == SweptTables(Prune(now - cfg.routeTtl), old(View()))
      ensures pruned == Dropped(Prune(now - cfg.routeTtl), old(View()), old(order))
    {
      pruned := SweepRoutes(Prune(now - cfg.routeTtl));
    }

    // ---------- The neighbour list ----------

    function Count(counts: map<string, nat>, c: string): nat
    {
      if c in counts then counts[c] else 0
    }

    method UseCounts() returns (counts: map<string, nat>)
      requires Valid()
      ensures forall c :: Count(counts, c) == UseCount(View(), order, c)
    {
      assert forall k :: k in order <==> k in routes;
      hide Shaped;
      counts := map[];
      for i := 0 to |order|
        invariant forall c :: Count(counts, c) == UseCount(View(), order[..i], c)
      {
        assert order[..i + 1][..i] == order[..i];
        var bucket := routes[order[i]];
        ghost var before := counts;
        for j := 0 to |bucket|
          invariant forall c :: Count(counts, c) == Count(before, c) + CountVia(bucket[..j], c)
        {
          assert bucket[..j + 1][..j] == bucket[..j];
          var v := Upper(bucket[j].viaCall);
          counts := counts[v := Count(counts, v) + 1];
        }
        assert bucket[..|bucket|] == bucket;
        forall c ensures Count(counts, c) == UseCount(View(), order[..i + 1], c) {
          assert Count(counts, c) == Count(before, c) + CountVia(bucket, c);
          assert Count(before, c) == UseCount(View(), order[..i], c);
        }
      }
      assert order[..|order|] == order;
    }

    method ReconcileNeighbours()
      requires Valid()
      modifies this`neighbours
      ensures Valid() && View() == Reconciled(old(View()))
    {
      ghost var was := View();
      assert Shaped(Reconciled(was));
      hide Shaped, UseCount;
      var counts := UseCounts();
      var todo := neighbours.Keys;
      while todo != {}
        invariant todo <= was.neighbours.Keys && neighbours.Keys <= was.neighbours.Keys
        invariant forall c :: c in todo ==> c in neighbours && neighbours[c] == was.neighbours[c]
        invariant forall c :: c in was.neighbours && c !in todo ==> (c in neighbours <==> StaysListed(was, c))
        invariant forall c :: c in neighbours && c !in todo ==>
          neighbours[c] == was.neighbours[c].(useCount := UseCount(was, was.order, c))
        decreases todo
      {
        var c :| c in todo;
        todo := todo - {c};
        var nbr := neighbours[c].(useCount := Count(counts, c));
        if nbr.useCount == 0 && !nbr.locked && c !in crosslinks {
          neighbours := neighbours - {c};
        } else {
          neighbours := neighbours[c := nbr];
        }
        SameUseCount(was, View(), c);
      }
      assert neighbours == Reconciled(was).neighbours;
    }

    /** Use counts depend on the routes alone. */
    lemma SameUseCount(t: Tables, u: Tables, c: string)
      requires t.order == u.order
      ensures UseCount(t, t.order, c) == UseCount(t, u.order, c)
    {
    }

    method NoteCrosslink(call: string, up: bool)
      requires Valid()
      modifies this
      ensures Valid() && View() == CrosslinkNoted(old(View()), call, up)
    {
      var c := Upper(call);
      if up {
        crosslinks := crosslinks + {c};
      } else {
        crosslinks := crosslinks - {c};
        ReconcileNeighbours();
      }
    }

    method NoteHeardDirect(call: string, when: real)
      requires Valid()
      modifies this`heardDirect
      ensures Valid() && heardDirect == old(heardDirect)[Upper(call) := when]
    {
      heardDirect := heardDirect[Upper(call) := when];
    }

    // ---------- Queries ----------

    method RoutesTo(dest: string) returns (found: seq<RouteEntry>)
      requires Valid()
      ensures found == GetRoutes(View(), dest)
    {
      assert forall k :: k in order <==> k in routes;
      hide Shaped;
      var d := Upper(dest);
      if d in routes && routes[d] != [] {
        return routes[d];
      }
      for i := 0 to |order|
        invariant AliasMatch(View(), order, d) == AliasMatch(View(), order[i..], d)
      {
        assert order[i..][1..] == order[i + 1..];
        var b := routes[order[i]];
        if b != [] && Upper(b[0].alias) == d {
          return b;
        }
      }
      found := [];
    }

    method UsableRoutes(found: seq<RouteEntry>, minQuality: int) returns (usable: seq<RouteEntry>)
      ensures usable == AtLeast(found, minQuality)
    {
      usable := [];
      ghost var all := AtLeast(found, minQuality);
      assert found[0..] == found;
      for i := 0 to |found|
        invariant usable + AtLeast(found[i..], minQuality) == all
      {
        assert found[i..][1..] == found[i + 1..];
        ghost var rest := AtLeast(found[i + 1..], minQuality);
        if found[i].quality >= minQuality {
          assert usable + ([found[i]] + rest) == (usable + [found[i]]) + rest;
          usable := usable + [found[i]];
        } else {
          assert [] + rest == rest;
        }
      }
      assert usable == all;
    }

    method FirstUsableHop(now: real, usable: seq<RouteEntry>) returns (r: Option<RouteEntry>)
      ensures r == FirstReachable(cfg, View(), now, usable)
    {
      hide IsDirectNeighbor;
      for i := 0 to |usable|
        invariant FirstReachable(cfg, View(), now, usable) == FirstReachable(cfg, View(), now, usable[i..])
      {
        assert usable[i..][1..] == usable[i + 1..];
        if IsDirectNeighbor(cfg, View(), now, usable[i].viaCall) {
          return Some(usable[i]);
        }
      }
      r := None;
    }

    method NextHop(routable: string -> bool, now: real, dest: string, minQuality: int) returns (hop: Option<string>)
      requires Valid()
      ensures hop == BestNeighborFor(cfg, View(), routable, now, dest, minQuality)
    {
      hide IsDirectNeighbor, GetRoutes, Shaped, AtLeast, FirstReachable;
      var found := RoutesTo(dest);
      var destCall := if found != [] then Upper(found[0].destCall) else Upper(dest);
      if routable(destCall) && IsDirectNeighbor(cfg, View(), now, destCall) {
        return Some(destCall);
      }
      var usable := UsableRoutes(found, minQuality);
      if usable == [] {
        return None;
      }
      var reachable := FirstUsableHop(now, usable);
      var chosen := if reachable.Some? then reachable.value else usable[0];
      hop := Some(Upper(chosen.viaCall));
    }

    // ---------- Advertising ----------

    method CollectEntries() returns (entries: seq<NodeEntry>)
      requires Valid()
      ensures entries == NodesEntries(cfg, View())
    {
      assert forall k :: k in order <==> k in routes;
      hide Shaped, Advertisable;
      entries := [];
      for i := 0 to |order|
        invariant entries == Gathered(cfg, View(), order[..i])
      {
        assert order[..i + 1][..i] == order[..i];
        var b := routes[order[i]];
        if Advertisable(cfg, b) {
          entries := entries + [Entry(b[0])];
        }
      }
      assert order[..|order|] == order;
      entries := SortByDest(entries);
    }

    method BuildNodesPayloads() returns (payloads: Option<seq<seq<byte>>>)
      requires Valid()
      ensures payloads == NodesPayloads(cfg, View())
    {
      hide EncodeNodes, NodesEntries, Shaped;
      if cfg.advertiseSelfOnly {
        var p := EncodeNodesBroadcast(cfg.alias, []);
        OnePayload(cfg.alias);
        return match p case Some(w) => Some([w]) case None => None;
      }
      var entries := CollectEntries();
      payloads := EncodeInFrames(entries);
    }

    lemma OnePayload(alias: string)
      ensures EncodeAll(alias, [[]]) == match EncodeNodes(alias, []) case Some(w) => Some([w]) case None => None
    {
      hide EncodeNodes;
      var one: seq<seq<NodeEntry>> := [[]];
      assert one[1..] == [] && EncodeAll(alias, one[1..]) == Some([]);
      var p := EncodeNodes(alias, one[0]);
      assert p.Some? ==> [p.value] + [] == [p.value];
    }

    method EncodeInFrames(entries: seq<NodeEntry>) returns (payloads: Option<seq<seq<byte>>>)
      ensures payloads == EncodeAll(cfg.alias, Chunks(entries))
    {
      hide EncodeNodes, EncodeAll, Chunks;
      var out: seq<seq<byte>> := [];
      var i := 0;
      ghost var all := EncodeAll(cfg.alias, Chunks(entries));
      ghost var end := 0;
      assert entries[0..] == entries;
      PrefixedNothing(all);
      while i < |entries|
        invariant 0 <= i && end == Min(i, |entries|)
        invariant all == Prefixed(out, EncodeAll(cfg.alias, Chunks(entries[end..])))
        decreases |entries| - i
      {
        var upTo := Min(i + MAX_ENTRIES_PER_FRAME, |entries|);
        var p := EncodeNodesBroadcast(cfg.alias, entries[i..upTo]);
        NextChunk(cfg.alias, entries, i);
        if p.None? {
          return None;
        }
        PrefixedTwice(out, p.value, EncodeAll(cfg.alias, Chunks(entries[upTo..])));
        out := out + [p.value];
        i := i + MAX_ENTRIES_PER_FRAME;
        end := upTo;
      }
      NoChunks(cfg.alias, entries[end..]);
      assert out + [] == out;
      payloads := Some(out);
    }

    function Prefixed(out: seq<seq<byte>>, rest: Option<seq<seq<byte>>>): Option<seq<seq<byte>>>
    {
      match rest case Some(ps) => Some(out + ps) case None => None
    }

    lemma PrefixedNothing(rest: Option<seq<seq<byte>>>)
      ensures Prefixed([], rest) == rest
    {
      assert rest.Some? ==> [] + rest.value == rest.value;
    }

    lemma PrefixedTwice(out: seq<seq<byte>>, p: seq<byte>, rest: Option<seq<seq<byte>>>)
      ensures Prefixed(out, Prefixed([p], rest)) == Prefixed(out + [p], rest)
    {
      assert rest.Some? ==> out + ([p] + rest.value) == out + [p] + rest.value;
    }

    lemma NoChunks(alias: string, entries: seq<NodeEntry>)
      requires entries == []
      ensures EncodeAll(alias, Chunks(entries)) == Some([])
    {
    }

    lemma NextChunk(alias: string, entries: seq<NodeEntry>, i: nat)
      requires i < |entries|
      ensures var end := Min(i + MAX_ENTRIES_PER_FRAME, |entries|);
        EncodeAll(alias, Chunks(entries[i..])) ==
          match EncodeNodes(alias, entries[i..end])
          case Some(p) => Prefixed([p], EncodeAll(alias, Chunks(entries[end..])))
          case None => None
    {
      hide EncodeNodes;
      var end := Min(i + MAX_ENTRIES_PER_FRAME, |entries|);
      if end == |entries| {
        assert entries[i..end] == entries[i..] && entries[end..] == [];
      } else {
        assert entries[i..][..MAX_ENTRIES_PER_FRAME] == entries[i..end];
        assert entries[i..][MAX_ENTRIES_PER_FRAME..] == entries[end..];
      }
    }
  }
}

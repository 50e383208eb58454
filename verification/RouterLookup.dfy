/** Finding a destination and the way to it: by callsign, else by the first alias that was learned,
    and from what was found the neighbour to call. */
module RouterLookup {
  import opened Prelude
  import opened Buckets
  import opened RouterTables
  import opened RouterInvariants

  // ---------- By callsign or alias ----------

  /** The i-th destination learned has this alias on its best route. */
  predicate AliasAt(t: Tables, i: nat, alias: string)
    requires i < |t.order|
  {
    t.order[i] in t.routes && t.routes[t.order[i]] != [] && Upper(t.routes[t.order[i]][0].alias) == alias
  }

  /** b is what a lookup must answer: the destination's own bucket if it is known by its callsign, else
      that of the first destination learned whose best route has the alias, else nothing. */
  predicate Answers(t: Tables, dest: string, b: seq<RouteEntry>)
  {
    var d := Upper(dest);
    if d in t.routes then b == t.routes[d]
    else if b == [] then forall i :: 0 <= i < |t.order| ==> !AliasAt(t, i, d)
    else exists i :: 0 <= i < |t.order| && AliasAt(t, i, d) && b == t.routes[t.order[i]]
                     && forall j :: 0 <= j < i ==> !AliasAt(t, j, d)
  }

  lemma {:induction false} AliasMatchFrom(t: Tables, k: nat, alias: string)
    requires Shaped(t) && k <= |t.order|
    ensures var b := AliasMatch(t, t.order[k..], alias);
      if b == [] then forall i :: k <= i < |t.order| ==> !AliasAt(t, i, alias)
      else exists i :: k <= i < |t.order| && AliasAt(t, i, alias) && b == t.routes[t.order[i]]
                       && forall j :: k <= j < i ==> !AliasAt(t, j, alias)
    decreases |t.order| - k
  {
    if k < |t.order| {
      assert t.order[k..][0] == t.order[k] && t.order[k..][1..] == t.order[k + 1..];
      assert BucketOk(t.order[k], t.routes[t.order[k]]) by { assert t.order[k] in t.order; }
      hide BucketOk, Shaped;
      AliasMatchFrom(t, k + 1, alias);
      if AliasAt(t, k, alias) {
        assert AliasMatch(t, t.order[k..], alias) == t.routes[t.order[k]];
      } else {
        assert AliasMatch(t, t.order[k..], alias) == AliasMatch(t, t.order[k + 1..], alias);
      }
    }
  }

  /** A lookup answers just that, and nothing only when the destination is known neither way. */
  lemma LookupAnswers(t: Tables, dest: string)
    requires Shaped(t)
    ensures Answers(t, dest, GetRoutes(t, dest))
    ensures GetRoutes(t, dest) == [] <==>
      Upper(dest) !in t.routes && forall i :: 0 <= i < |t.order| ==> !AliasAt(t, i, Upper(dest))
  {
    var d := Upper(dest);
    AliasMatchFrom(t, 0, d);
    assert t.order[0..] == t.order;
    assert d in t.routes ==> BucketOk(d, t.routes[d]);
    hide Shaped, BucketOk;
  }

  /** There is one answer. */
  lemma OneAnswer(t: Tables, dest: string, b: seq<RouteEntry>)
    requires Shaped(t) && Answers(t, dest, b)
    ensures b == GetRoutes(t, dest)
  {
    LookupAnswers(t, dest);
    hide Shaped;
    var d, g := Upper(dest), GetRoutes(t, dest);
    if d !in t.routes && b != [] && g != [] {
      var i :| 0 <= i < |t.order| && AliasAt(t, i, d) && b == t.routes[t.order[i]]
               && forall j :: 0 <= j < i ==> !AliasAt(t, j, d);
      var i' :| 0 <= i' < |t.order| && AliasAt(t, i', d) && g == t.routes[t.order[i']]
                && forall j :: 0 <= j < i' ==> !AliasAt(t, j, d);
      assert i == i';
    }
  }

  // ---------- Who can be reached in one hop ----------

  /** A node: a destination, a first hop of some route, or the far end of a live crosslink. */
  ghost predicate IsNode(t: Tables, c: string)
  {
    || c in t.routes || c in t.crosslinks
    || exists k, i :: k in t.routes && 0 <= i < |t.routes[k]| && Upper(t.routes[k][i].viaCall) == c
  }

  /** A live crosslink, a usable neighbour, a node heard on the air lately, or one whose own recent
      broadcast gave a direct route. What was never heard counts as heard at time 0. */
  ghost predicate OneHop(cfg: Config, t: Tables, now: real, call: string)
  {
    var c := Upper(call);
    || c in t.crosslinks
    || (c in t.neighbours && t.neighbours[c].pathQuality != 0)
    || (IsNode(t, c) && (if c in t.heardDirect then now <= t.heardDirect[c] + cfg.heardTtl else now <= cfg.heardTtl))
    || (c in t.routes && exists i :: 0 <= i < |t.routes[c]|
                                     && Upper(t.routes[c][i].viaCall) == Upper(t.routes[c][i].destCall)
                                     && now <= t.routes[c][i].lastSeen + cfg.routeTtl)
  }

  lemma {:induction false} CountViaIff(s: seq<RouteEntry>, c: string)
    ensures CountVia(s, c) > 0 <==> exists i :: 0 <= i < |s| && Upper(s[i].viaCall) == c
  {
    if s != [] {
      var n := |s| - 1;
      CountViaIff(s[..n], c);
      if i :| 0 <= i < n && Upper(s[i].viaCall) == c {
        assert s[..n][i] == s[i];
      }
    }
  }

  lemma KnownIff(t: Tables, c: string)
    ensures IsKnownNode(t, c) <==> IsNode(t, c)
  {
    forall k | k in t.routes ensures CountVia(t.routes[k], c) > 0 <==>
      exists i :: 0 <= i < |t.routes[k]| && Upper(t.routes[k][i].viaCall) == c
    {
      CountViaIff(t.routes[k], c);
    }
    hide CountVia;
  }

  /** The adjacency authority says yes exactly to these. */
  lemma DirectIff(cfg: Config, t: Tables, now: real, call: string)
    ensures IsDirectNeighbor(cfg, t, now, call) <==> OneHop(cfg, t, now, call)
  {
    var c := Upper(call);
    KnownIff(t, c);
    hide IsKnownNode, IsNode;
    if c in t.routes {
      if i :| 0 <= i < |t.routes[c]| && Upper(t.routes[c][i].viaCall) == Upper(t.routes[c][i].destCall)
              && now <= t.routes[c][i].lastSeen + cfg.routeTtl {
        assert t.routes[c][i] in Bucket(t, c);
      }
      if r :| r in Bucket(t, c) && IsDirect(r) && r.lastSeen >= now - cfg.routeTtl {
        var i :| 0 <= i < |t.routes[c]| && t.routes[c][i] == r;
      }
    }
  }

  // ---------- The neighbour to call ----------

  /** Route i is good enough, and none before it is. */
  predicate FirstGood(b: seq<RouteEntry>, minQuality: int, i: nat)
    requires i < |b|
  {
    b[i].quality >= minQuality && forall j :: 0 <= j < i ==> b[j].quality < minQuality
  }

  /** Route i is good enough and its first hop within reach, and none before it is both. */
  ghost predicate FirstReachableGood(cfg: Config, t: Tables, now: real, b: seq<RouteEntry>, minQuality: int, i: nat)
    requires i < |b|
  {
    && b[i].quality >= minQuality && OneHop(cfg, t, now, b[i].viaCall)
    && forall j :: 0 <= j < i && b[j].quality >= minQuality ==> !OneHop(cfg, t, now, b[j].viaCall)
  }

  ghost predicate NoneReachable(cfg: Config, t: Tables, now: real, b: seq<RouteEntry>, minQuality: int)
  {
    forall j :: 0 <= j < |b| && b[j].quality >= minQuality ==> !OneHop(cfg, t, now, b[j].viaCall)
  }

  /** What next-hop choice must answer from the routes b: the destination itself if it is a callsign
      within reach; else the first hop of the best good route that we reach; else that of the best good
      route; and nothing only if no route is good. */
  ghost predicate Chooses(cfg: Config, t: Tables, routable: string -> bool, now: real, dest: string, b: seq<RouteEntry>,
                          minQuality: int, answer: Option<string>)
  {
    var destCall := if b != [] then Upper(b[0].destCall) else Upper(dest);
    if routable(destCall) && OneHop(cfg, t, now, destCall) then answer == Some(destCall)
    else
      match answer
      case None => forall j :: 0 <= j < |b| ==> b[j].quality < minQuality
      case Some(v) =>
        exists i :: 0 <= i < |b| && v == Upper(b[i].viaCall)
                    && (FirstReachableGood(cfg, t, now, b, minQuality, i)
                        || (FirstGood(b, minQuality, i) && NoneReachable(cfg, t, now, b, minQuality)))
  }

  lemma {:induction false} GoodFrom(b: seq<RouteEntry>, minQuality: int, k: nat)
    requires k <= |b|
    ensures var good := AtLeast(b[k..], minQuality);
      if good == [] then forall j :: k <= j < |b| ==> b[j].quality < minQuality
      else exists i :: k <= i < |b| && good[0] == b[i] && b[i].quality >= minQuality
                       && forall j :: k <= j < i ==> b[j].quality < minQuality
    decreases |b| - k
  {
    if k < |b| {
      assert b[k..][1..] == b[k + 1..];
      GoodFrom(b, minQuality, k + 1);
    }
  }

  lemma {:induction false} ReachFrom(cfg: Config, t: Tables, now: real, b: seq<RouteEntry>, minQuality: int, k: nat)
    requires k <= |b|
    ensures var r := FirstReachable(cfg, t, now, AtLeast(b[k..], minQuality));
      match r
      case None => forall j :: k <= j < |b| && b[j].quality >= minQuality ==> !OneHop(cfg, t, now, b[j].viaCall)
      case Some(x) =>
        exists i :: k <= i < |b| && x == b[i] && b[i].quality >= minQuality && OneHop(cfg, t, now, b[i].viaCall)
                    && forall j :: k <= j < i && b[j].quality >= minQuality ==> !OneHop(cfg, t, now, b[j].viaCall)
    decreases |b| - k
  {
    hide OneHop, IsDirectNeighbor;
    if k < |b| {
      assert b[k..][1..] == b[k + 1..];
      ReachFrom(cfg, t, now, b, minQuality, k + 1);
      DirectIff(cfg, t, now, b[k].viaCall);
      GoodCons(b, minQuality, k);
    }
  }

  lemma GoodCons(b: seq<RouteEntry>, minQuality: int, k: nat)
    requires k < |b|
    ensures var rest := AtLeast(b[k + 1..], minQuality); var good := AtLeast(b[k..], minQuality);
      if b[k].quality >= minQuality then good != [] && good[0] == b[k] && good[1..] == rest else good == rest
  {
    assert b[k..][1..] == b[k + 1..];
  }

  lemma ChooseFrom(cfg: Config, t: Tables, now: real, b: seq<RouteEntry>, minQuality: int)
    ensures var good := AtLeast(b, minQuality);
      && (good == [] ==> forall j :: 0 <= j < |b| ==> b[j].quality < minQuality)
      && (good != [] ==>
            match FirstReachable(cfg, t, now, good)
            case Some(r) => exists i :: 0 <= i < |b| && r == b[i] && FirstReachableGood(cfg, t, now, b, minQuality, i)
            case None => NoneReachable(cfg, t, now, b, minQuality)
                         && exists i :: 0 <= i < |b| && good[0] == b[i] && FirstGood(b, minQuality, i))
  {
    hide OneHop, FirstReachable;
    assert b[0..] == b;
    GoodFrom(b, minQuality, 0);
    ReachFrom(cfg, t, now, b, minQuality, 0);
  }

  /** Next-hop choice answers just that, from whatever a lookup finds, by callsign or by alias. */
  lemma NextHopIs(cfg: Config, t: Tables, routable: string -> bool, now: real, dest: string, b: seq<RouteEntry>,
                  minQuality: int)
    requires Shaped(t) && Answers(t, dest, b)
    ensures Chooses(cfg, t, routable, now, dest, b, minQuality, BestNeighborFor(cfg, t, routable, now, dest, minQuality))
  {
    hide Shaped, Answers, GetRoutes, OneHop, IsDirectNeighbor, FirstReachable, AtLeast, FirstReachableGood, FirstGood,
         NoneReachable;
    OneAnswer(t, dest, b);
    var destCall := if b != [] then Upper(b[0].destCall) else Upper(dest);
    DirectIff(cfg, t, now, destCall);
    ChooseFrom(cfg, t, now, b, minQuality);
  }

  /** A destination named by its alias: the first destination learned with it, and unless another is
      called so. If its call is one hop away that is whom to call. */
  lemma NextHopByAlias(cfg: Config, t: Tables, routable: string -> bool, now: real, alias: string, i: nat, minQuality: int)
    requires Shaped(t) && Upper(alias) !in t.routes && i < |t.order| && AliasAt(t, i, Upper(alias))
    requires forall j :: 0 <= j < i ==> !AliasAt(t, j, Upper(alias))
    ensures Chooses(cfg, t, routable, now, alias, t.routes[t.order[i]], minQuality,
                    BestNeighborFor(cfg, t, routable, now, alias, minQuality))
    ensures routable(t.order[i]) && OneHop(cfg, t, now, t.order[i]) ==>
      BestNeighborFor(cfg, t, routable, now, alias, minQuality) == Some(t.order[i])
  {
    var b := t.routes[t.order[i]];
    assert BucketOk(t.order[i], b);
    hide Shaped, BestNeighborFor, OneHop;
    assert Upper(b[0].destCall) == t.order[i];
    NextHopIs(cfg, t, routable, now, alias, b, minQuality);
  }
}

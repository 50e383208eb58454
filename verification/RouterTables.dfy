/** The routing table and neighbour list of a NET/ROM node, as values: what every operation of
    the router does to them, and what every query answers. The clock is a parameter. */
module RouterTables {
  import opened Prelude
  import opened RouteQuality
  import opened Buckets

  datatype Neighbour = Neighbour(pathQuality: byte, useCount: nat, locked: bool, lastHeard: real)

  /** One advertised destination, and one decoded NODES broadcast. */
  datatype NodeEntry = NodeEntry(destCall: string, alias: string, neighborCall: string, quality: byte)

  datatype NodesFrame = NodesFrame(sourceCall: string, sourceAlias: string, entries: seq<NodeEntry>)

  /** `call` is stored in upper case. */
  datatype Config = Config(
    call: string, alias: string, channelQuality: byte, neighbourQuality: map<string, byte>,
    worstQuality: byte, maxDestinations: nat, obsInitializer: byte, obsMinToBroadcast: byte,
    routeTtl: real, heardTtl: real, advertiseSelfOnly: bool)

  /** `order` is the insertion order of the keys of `routes`. */
  datatype Tables = Tables(
    routes: map<string, seq<RouteEntry>>, order: seq<string>,
    neighbours: map<string, Neighbour>, crosslinks: set<string>, heardDirect: map<string, real>)

  const EMPTY := Tables(map[], [], map[], {}, map[])

  // ---------- Learning from a broadcast ----------

  function Bucket(t: Tables, key: string): seq<RouteEntry>
  {
    if key in t.routes then t.routes[key] else []
  }

  function Upserted(t: Tables, e: RouteEntry): Tables
  {
    var key := Upper(e.destCall);
    t.(routes := t.routes[key := UpsertBucket(Bucket(t, key), e)],
       order := if key in t.routes then t.order else t.order + [key])
  }

  function DefaultPathQuality(cfg: Config, c: string): byte
  {
    if c in cfg.neighbourQuality then cfg.neighbourQuality[c] else cfg.channelQuality
  }

  /** The entry that hearing neighbour c leaves in the neighbour list. */
  function Heard(cfg: Config, t: Tables, c: string, now: real): Neighbour
  {
    if c !in t.neighbours then Neighbour(DefaultPathQuality(cfg, c), 0, false, now)
    else if t.neighbours[c].locked then t.neighbours[c].(lastHeard := now)
    else t.neighbours[c].(lastHeard := now, pathQuality := DefaultPathQuality(cfg, c))
  }

  function SourceRoute(cfg: Config, f: NodesFrame, pathQuality: byte, now: real): RouteEntry
  {
    RouteEntry(f.sourceCall, f.sourceAlias, f.sourceCall, pathQuality,
               f.sourceCall, f.sourceAlias, now, cfg.obsInitializer)
  }

  /** A route that names us as its next hop is a loop, worth nothing (rule 6). */
  function HopQuality(cfg: Config, e: NodeEntry, pathQuality: byte): byte
  {
    if Upper(e.neighborCall) == cfg.call then 0 else Compose(e.quality, pathQuality)
  }

  function IndirectRoute(cfg: Config, f: NodesFrame, pathQuality: byte, now: real, e: NodeEntry): RouteEntry
  {
    RouteEntry(e.destCall, e.alias, e.neighborCall, HopQuality(cfg, e, pathQuality),
               f.sourceCall, f.sourceAlias, now, cfg.obsInitializer)
  }

  /** Rules 5 to 9 for one advertised entry. */
  function Learn(cfg: Config, t: Tables, f: NodesFrame, pathQuality: byte, now: real, e: NodeEntry): Tables
  {
    if HopQuality(cfg, e, pathQuality) < cfg.worstQuality then t
    else if Upper(e.destCall) !in t.routes && |t.routes| >= cfg.maxDestinations then t
    else Upserted(t, IndirectRoute(cfg, f, pathQuality, now, e))
  }

  function LearnAll(cfg: Config, t: Tables, f: NodesFrame, pathQuality: byte, now: real, es: seq<NodeEntry>): Tables
    decreases |es|
  {
    if es == [] then t
    else
      var n := |es| - 1;
      Learn(cfg, LearnAll(cfg, t, f, pathQuality, now, es[..n]), f, pathQuality, now, es[n])
  }

  /** What a broadcast changes before its entries are looked at: nothing when automatic routing
      is off; otherwise the neighbour, and the direct route unless the neighbour is ignored. */
  function NeighbourTouched(cfg: Config, t: Tables, f: NodesFrame, now: real): Tables
  {
    var c := Upper(f.sourceCall);
    t.(neighbours := t.neighbours[c := Heard(cfg, t, c, now)])
  }

  function ProcessNodes(cfg: Config, t: Tables, f: NodesFrame, now: real): Tables
  {
    var pathQuality := Heard(cfg, t, Upper(f.sourceCall), now).pathQuality;
    if cfg.worstQuality == 0 then t
    else if pathQuality == 0 then NeighbourTouched(cfg, t, f, now)
    else
      var direct := Upserted(NeighbourTouched(cfg, t, f, now), SourceRoute(cfg, f, pathQuality, now));
      LearnAll(cfg, direct, f, pathQuality, now, f.entries)
  }

  /** Entries whose destination is no callsign never reach the tables. */
  function Sanitized(routable: string -> bool, es: seq<NodeEntry>): seq<NodeEntry>
  {
    if es == [] then []
    else (if routable(es[0].destCall) then [es[0]] else []) + Sanitized(routable, es[1..])
  }

  // ---------- Sweeps: the obsolescence scan and the TTL prune ----------

  datatype Sweep = Scan | Prune(cutoff: real)

  function Survivor(w: Sweep, r: RouteEntry): Option<RouteEntry>
  {
    match w
    case Scan =>
      if r.obsCount == 0 then Some(r)
      else if r.obsCount > 1 then Some(r.(obsCount := r.obsCount - 1))
      else None
    case Prune(cutoff) => if r.lastSeen >= cutoff then Some(r) else None
  }

  function Swept(w: Sweep, s: seq<RouteEntry>): seq<RouteEntry>
  {
    if s == [] then []
    else
      var n := |s| - 1;
      Swept(w, s[..n]) + match Survivor(w, s[n]) case Some(r) => [r] case None => []
  }

  function Only(order: seq<string>, keys: set<string>): seq<string>
  {
    if order == [] then []
    else (if order[0] in keys then [order[0]] else []) + Only(order[1..], keys)
  }

  function SweptRoutes(w: Sweep, routes: map<string, seq<RouteEntry>>): map<string, seq<RouteEntry>>
  {
    map k | k in routes && Swept(w, routes[k]) != [] :: Swept(w, routes[k])
  }

  function SweptTables(w: Sweep, t: Tables): Tables
  {
    var routes := SweptRoutes(w, t.routes);
    t.(routes := routes, order := Only(t.order, routes.Keys))
  }

  // ---------- The neighbour list follows the routes ----------

  function CountVia(s: seq<RouteEntry>, c: string): nat
  {
    if s == [] then 0
    else CountVia(s[..|s| - 1], c) + if Via(s[|s| - 1]) == c then 1 else 0
  }

  function UseCount(t: Tables, keys: seq<string>, c: string): nat
  {
    if keys == [] then 0
    else UseCount(t, keys[..|keys| - 1], c) + CountVia(Bucket(t, keys[|keys| - 1]), c)
  }

  predicate StaysListed(t: Tables, c: string)
    requires c in t.neighbours
  {
    UseCount(t, t.order, c) > 0 || t.neighbours[c].locked || c in t.crosslinks
  }

  function Reconciled(t: Tables): Tables
  {
    t.(neighbours := map c | c in t.neighbours && StaysListed(t, c) ::
      t.neighbours[c].(useCount := UseCount(t, t.order, c)))
  }

  function Decayed(cfg: Config, t: Tables): Tables
  {
    if cfg.obsInitializer == 0 then t else Reconciled(SweptTables(Scan, t))
  }

  function CrosslinkNoted(t: Tables, call: string, up: bool): Tables
  {
    if up then t.(crosslinks := t.crosslinks + {Upper(call)})
    else Reconciled(t.(crosslinks := t.crosslinks - {Upper(call)}))
  }

  // ---------- Queries ----------

  function AliasMatch(t: Tables, keys: seq<string>, alias: string): seq<RouteEntry>
  {
    if keys == [] then []
    else
      var b := Bucket(t, keys[0]);
      if b != [] && Upper(b[0].alias) == alias then b else AliasMatch(t, keys[1..], alias)
  }

  /** By callsign, or else by alias in insertion order. */
  function GetRoutes(t: Tables, dest: string): seq<RouteEntry>
  {
    var d := Upper(dest);
    if Bucket(t, d) != [] then Bucket(t, d) else AliasMatch(t, t.order, d)
  }

  predicate IsKnownNode(t: Tables, c: string)
  {
    c in t.routes || c in t.crosslinks
    || exists k :: k in t.routes && CountVia(t.routes[k], c) > 0
  }

  predicate HasFreshDirectRoute(cfg: Config, t: Tables, now: real, c: string)
  {
    exists r :: r in Bucket(t, c) && IsDirect(r) && r.lastSeen >= now - cfg.routeTtl
  }

  /** The one adjacency authority. */
  predicate IsDirectNeighbor(cfg: Config, t: Tables, now: real, call: string)
  {
    var c := Upper(call);
    || c in t.crosslinks
    || (c in t.neighbours && t.neighbours[c].pathQuality > 0)
    || (IsKnownNode(t, c) && now - (if c in t.heardDirect then t.heardDirect[c] else 0.0) <= cfg.heardTtl)
    || HasFreshDirectRoute(cfg, t, now, c)
  }

  function AtLeast(s: seq<RouteEntry>, minQuality: int): seq<RouteEntry>
  {
    if s == [] then []
    else (if s[0].quality >= minQuality then [s[0]] else []) + AtLeast(s[1..], minQuality)
  }

  function FirstReachable(cfg: Config, t: Tables, now: real, s: seq<RouteEntry>): Option<RouteEntry>
  {
    if s == [] then None
    else if IsDirectNeighbor(cfg, t, now, s[0].viaCall) then Some(s[0])
    else FirstReachable(cfg, t, now, s[1..])
  }

  /** The first hop of a circuit to `dest`; the last branch is the best-effort fallback. */
  function BestNeighborFor(cfg: Config, t: Tables, routable: string -> bool, now: real,
                           dest: string, minQuality: int): Option<string>
  {
    var routes := GetRoutes(t, dest);
    var destCall := if routes != [] then Upper(routes[0].destCall) else Upper(dest);
    if routable(destCall) && IsDirectNeighbor(cfg, t, now, destCall) then Some(destCall)
    else
      var usable := AtLeast(routes, minQuality);
      if usable == [] then None
      else match FirstReachable(cfg, t, now, usable)
        case Some(r) => Some(Via(r))
        case None => Some(Via(usable[0]))
  }
}

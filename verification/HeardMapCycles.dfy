/** Digipeaters that confirm each other: when two of them are each other's best parent, neither
    has a way to the BBS on the map, however often their paths are heard. */
module HeardMapCycles {
  import opened Prelude
  import opened HeardPaths
  import opened HeardMap
  import opened HeardMapDrawing

  /** Two digipeaters that are each other's best parent are both left out, confirmed or not. */
  lemma CyclesAreLeftOut(c: Chart, a: string, b: string, digisOnly: bool)
    requires Rooted(c) && a in c.parent && b in c.parent && c.parent[a] == b && c.parent[b] == a
    ensures a !in Drawn(MapLines(c, digisOnly)) && b !in Drawn(MapLines(c, digisOnly))
  {
    DrawsWhatReachesUs(c, digisOnly);
    NoChainTo(c, a, b);
    NoChainTo(c, b, a);
    hide Rooted, MapLines, Drawn;
  }

  lemma NoChainTo(c: Chart, a: string, b: string)
    requires c.bbs !in c.parent && a in c.parent && b in c.parent && c.parent[a] == b && c.parent[b] == a
    ensures !Reaches(c, a)
  {
    if Reaches(c, a) {
      var p :| Chain(c, p) && p[|p| - 1] == a;
      var n := |p| - 1;
      assert n >= 2 && p[n - 1] == b && p[n - 2] == a;
      ChainIsSimple(c, p, n - 2, n);
    }
  }

  // ---------- From what was heard ----------

  /** The hop from a to b was heard, and more often than any other hop out of a. */
  predicate Prefers(es: seq<Edge>, a: string, b: string)
  {
    && Edge(a, b) in es
    && forall e :: e in es && e.from == a && e.to != b ==> multiset(es)[e] < multiset(es)[Edge(a, b)]
  }

  lemma PreferredIsParent(es: seq<Edge>, bbs: string, a: string, b: string)
    requires Prefers(es, a, b) && a != bbs && b != []
    ensures var parent := Parents(TallyOf(es), bbs); a in parent && parent[a] == b
  {
    TallyCounts(es);
    var t := TallyOf(es);
    hide TallyOf;
    var x :| x in t && x.edge == Edge(a, b);
    BestIsBest(t, a);
    var best := BestOf(t, a).value;
    assert best in t;
    assert best.edge in multiset(es);
    assert best.edge in es;
    hide BestOf;
    assert best.edge.to == b;
    assert a in Sources(t);
  }

  /** If the hop from a to b was heard more often than any other out of a, and the hop from b to a
      more often than any other out of b, then both are confirmed digipeaters and neither is drawn. */
  lemma MutualHopsAreLeftOut(c: Chart, rows: seq<Relayed>, bbs: string, a: string, b: string, digisOnly: bool)
    requires Charts(c, rows, bbs) && bbs !in {a, b} && a != [] && b != []
    requires Prefers(EdgesOf(rows, bbs), a, b) && Prefers(EdgesOf(rows, bbs), b, a)
    ensures Rooted(c) && Relays(rows, bbs, a) && Relays(rows, bbs, b)
    ensures a !in Drawn(MapLines(c, digisOnly)) && b !in Drawn(MapLines(c, digisOnly))
  {
    hide TallyOf, EdgesOf, Digis, Parents, Groups, Drawn, MapLines, Rooted;
    ChartsAreRooted(c, rows, bbs);
    PreferredIsParent(EdgesOf(rows, bbs), bbs, a, b);
    PreferredIsParent(EdgesOf(rows, bbs), bbs, b, a);
    CyclesAreLeftOut(c, a, b, digisOnly);
  }

  // ---------- Four rows that do it ----------

  /** A digipeater's name as a hop carries it. */
  predicate IsName(n: string)
  {
    IsHop(n + "*") && !Starred(n)
  }

  /** Heard through p, q and r, all confirmed. */
  function Through(src: string, p: string, q: string, r: string): Relayed
  {
    Relayed(src, Joined([p + "*", q + "*", r + "*"]))
  }

  function Run(src: string, p: string, q: string, r: string, bbs: string): seq<Edge>
  {
    [Edge(src, p), Edge(p, q), Edge(q, r), Edge(r, bbs)]
  }

  lemma NameStarred(n: string)
    requires !Starred(n)
    ensures Starred(n + "*") && Unstarred(n + "*") == n
  {
    UnstarredIs(n);
    assert Unstarred(Unstarred(n) + "*") == Unstarred(n);
  }

  lemma ThreeStarred(p: string, q: string, r: string)
    requires IsName(p) && IsName(q) && IsName(r)
    ensures var hops := [p + "*", q + "*", r + "*"]; ConfirmedLen(hops) == 3 && Names(hops[..3]) == [p, q, r]
  {
    hide Starred, Unstarred;
    var hops := [p + "*", q + "*", r + "*"];
    NameStarred(p);
    NameStarred(q);
    NameStarred(r);
    assert hops[..3] == hops;
  }

  lemma ChainIsRun(src: string, p: string, q: string, r: string, bbs: string)
    ensures ChainEdges(src, [p, q, r], bbs) == Run(src, p, q, r, bbs)
  {
    assert [src] + [p, q, r] + [bbs] == [src, p, q, r, bbs];
  }

  lemma ThroughRun(src: string, p: string, q: string, r: string, bbs: string)
    requires IsName(p) && IsName(q) && IsName(r)
    ensures var row := Through(src, p, q, r);
      ConfirmedEdges(Upper(row.callsign), row.via, bbs) == Run(Upper(src), p, q, r, bbs)
  {
    hide Hops, IsHop, Joined, ConfirmedLen, Names, ChainEdges, Starred;
    HopsOfJoined([p + "*", q + "*", r + "*"]);
    ThreeStarred(p, q, r);
    ChainIsRun(Upper(src), p, q, r, bbs);
    NoHops();
  }

  function CrossedRows(x: string, y: string, a: string, b: string, z: string, z': string): seq<Relayed>
  {
    [Through(x, a, b, z), Through(x, a, b, z'), Through(y, b, a, z), Through(y, b, a, z')]
  }

  lemma EdgesSnoc(rows: seq<Relayed>, row: Relayed, bbs: string)
    ensures EdgesOf(rows + [row], bbs) == EdgesOf(rows, bbs) + ConfirmedEdges(Upper(row.callsign), row.via, bbs)
  {
    assert (rows + [row])[..|rows|] == rows;
  }

  lemma CrossedEdges(x: string, y: string, a: string, b: string, z: string, z': string, bbs: string)
    requires IsName(a) && IsName(b) && IsName(z) && IsName(z')
    ensures var X, Y := Upper(x), Upper(y);
      EdgesOf(CrossedRows(x, y, a, b, z, z'), bbs) == CrossedRuns(X, Y, a, b, z, z', bbs)
  {
    hide ConfirmedEdges, Through, IsName, Run;
    var rows := CrossedRows(x, y, a, b, z, z');
    ThroughRun(x, a, b, z, bbs);
    ThroughRun(x, a, b, z', bbs);
    ThroughRun(y, b, a, z, bbs);
    ThroughRun(y, b, a, z', bbs);
    assert EdgesOf([], bbs) == [];
    EdgesSnoc([], rows[0], bbs);
    EdgesSnoc([rows[0]], rows[1], bbs);
    EdgesSnoc([rows[0], rows[1]], rows[2], bbs);
    EdgesSnoc([rows[0], rows[1], rows[2]], rows[3], bbs);
    hide EdgesOf;
    assert [] + [rows[0]] == [rows[0]];
    assert [rows[0]] + [rows[1]] == [rows[0], rows[1]];
    assert [rows[0], rows[1]] + [rows[2]] == [rows[0], rows[1], rows[2]];
    assert [rows[0], rows[1], rows[2]] + [rows[3]] == rows;
  }

  /** Hops out of the first digipeater of a run, and out of the second. */
  lemma RunCounts(src: string, p: string, q: string, r: string, bbs: string, e: Edge)
    requires src !in {p, q} && r !in {p, q} && p != q
    ensures e.from == p ==> multiset(Run(src, p, q, r, bbs))[e] == if e.to == q then 1 else 0
    ensures e.from == q ==> multiset(Run(src, p, q, r, bbs))[e] == if e.to == r then 1 else 0
  {
    assert multiset(Run(src, p, q, r, bbs)) == multiset{Edge(src, p), Edge(p, q), Edge(q, r), Edge(r, bbs)};
  }

  function CrossedRuns(X: string, Y: string, a: string, b: string, z: string, z': string, bbs: string): seq<Edge>
  {
    Run(X, a, b, z, bbs) + Run(X, a, b, z', bbs) + Run(Y, b, a, z, bbs) + Run(Y, b, a, z', bbs)
  }

  lemma CrossedCounts(X: string, Y: string, a: string, b: string, z: string, z': string, bbs: string, e: Edge)
    requires X !in {a, b} && Y !in {a, b} && z !in {a, b} && z' !in {a, b} && a != b
    ensures var n := multiset(CrossedRuns(X, Y, a, b, z, z', bbs))[e];
      var others := (if e.to == z then 1 else 0) + if e.to == z' then 1 else 0;
      && (e.from == a ==> n == others + if e.to == b then 2 else 0)
      && (e.from == b ==> n == others + if e.to == a then 2 else 0)
  {
    hide Run;
    RunCounts(X, a, b, z, bbs, e);
    RunCounts(X, a, b, z', bbs, e);
    RunCounts(Y, b, a, z, bbs, e);
    RunCounts(Y, b, a, z', bbs, e);
  }

  lemma CrossedPrefer(X: string, Y: string, a: string, b: string, z: string, z': string, bbs: string)
    requires X !in {a, b} && Y !in {a, b} && z !in {a, b} && z' !in {a, b} && a != b && z != z'
    ensures Prefers(CrossedRuns(X, Y, a, b, z, z', bbs), a, b) && Prefers(CrossedRuns(X, Y, a, b, z, z', bbs), b, a)
  {
    hide CrossedRuns;
    var es := CrossedRuns(X, Y, a, b, z, z', bbs);
    CrossedCounts(X, Y, a, b, z, z', bbs, Edge(a, b));
    CrossedCounts(X, Y, a, b, z, z', bbs, Edge(b, a));
    assert Edge(a, b) in multiset(es) && Edge(b, a) in multiset(es);
    forall e | e in es && e.from == a && e.to != b ensures multiset(es)[e] < multiset(es)[Edge(a, b)] {
      CrossedCounts(X, Y, a, b, z, z', bbs, e);
    }
    forall e | e in es && e.from == b && e.to != a ensures multiset(es)[e] < multiset(es)[Edge(b, a)] {
      CrossedCounts(X, Y, a, b, z, z', bbs, e);
    }
  }

  /** Two stations heard twice each, one through a then b, the other through b then a, each time
      with another digipeater after them: a and b are confirmed and missing from the map. */
  lemma CrossedPathsAreLeftOut(c: Chart, x: string, y: string, a: string, b: string, z: string, z': string, bbs: string,
                               digisOnly: bool)
    requires IsName(a) && IsName(b) && IsName(z) && IsName(z') && a != [] && b != []
    requires Upper(x) !in {a, b} && Upper(y) !in {a, b} && z !in {a, b} && z' !in {a, b} && a != b && z != z'
    requires bbs !in {a, b} && Charts(c, CrossedRows(x, y, a, b, z, z'), bbs)
    ensures var rows := CrossedRows(x, y, a, b, z, z');
      Rooted(c) && Relays(rows, bbs, a) && Relays(rows, bbs, b)
    ensures a !in Drawn(MapLines(c, digisOnly)) && b !in Drawn(MapLines(c, digisOnly))
  {
    hide CrossedRuns, CrossedRows, EdgesOf, Charts, Rooted, Relays, Drawn, MapLines, IsName, Prefers;
    CrossedEdges(x, y, a, b, z, z', bbs);
    CrossedPrefer(Upper(x), Upper(y), a, b, z, z', bbs);
    MutualHopsAreLeftOut(c, CrossedRows(x, y, a, b, z, z'), bbs, a, b, digisOnly);
  }

  /** For instance these rows, at any BBS that is not one of the two. */
  lemma FourRowsHideTwoDigis(c: Chart, bbs: string, digisOnly: bool)
    requires bbs !in {"A", "B"}
    requires Charts(c, [Relayed("X", "A*,B*,Z1*"), Relayed("X", "A*,B*,Z2*"),
                        Relayed("Y", "B*,A*,Z1*"), Relayed("Y", "B*,A*,Z2*")], bbs)
    ensures "A" in c.digis && "B" in c.digis && Rooted(c)
    ensures "A" !in Drawn(MapLines(c, digisOnly)) && "B" !in Drawn(MapLines(c, digisOnly))
  {
    hide CrossedRuns, EdgesOf, TallyOf, Groups, Rooted, Drawn, MapLines, Hops;
    JoinedLiteral("A", "B", "Z1", "A*,B*,Z1*");
    JoinedLiteral("A", "B", "Z2", "A*,B*,Z2*");
    JoinedLiteral("B", "A", "Z1", "B*,A*,Z1*");
    JoinedLiteral("B", "A", "Z2", "B*,A*,Z2*");
    var rows := CrossedRows("X", "Y", "A", "B", "Z1", "Z2");
    DigisAreRelays(rows, bbs, "A");
    DigisAreRelays(rows, bbs, "B");
    LiteralNames();
    CrossedPathsAreLeftOut(c, "X", "Y", "A", "B", "Z1", "Z2", bbs, digisOnly);
  }

  lemma JoinedLiteral(p: string, q: string, r: string, via: string)
    requires via == p + "*," + q + "*," + r + "*"
    ensures Joined([p + "*", q + "*", r + "*"]) == via
  {
    assert [p + "*", q + "*", r + "*"][1..] == [q + "*", r + "*"];
    assert [q + "*", r + "*"][1..] == [r + "*"];
    assert Joined([q + "*", r + "*"]) == q + "*" + "," + (r + "*");
    assert (p + "*") + "," + (q + "*" + "," + (r + "*")) == via;
  }

  lemma LiteralNames()
    ensures IsName("A") && IsName("B") && IsName("Z1") && IsName("Z2")
    ensures Upper("X") == "X" && Upper("Y") == "Y"
  {
  }
}

/** The network map: the confirmed hops are counted, every node gets its best parent, and the
    tree that hangs from the BBS is drawn. */
module HeardMap {
  import opened Prelude
  import opened HeardPaths

  // ---------- Counting the hops ----------

  /** A relayed station and the path it was heard through. */
  datatype Relayed = Relayed(callsign: string, via: string)

  /** The counts stay in the order in which the hops were first seen. */
  datatype Tally = Tally(edge: Edge, n: nat)

  function Bump(t: seq<Tally>, e: Edge): seq<Tally>
  {
    if t == [] then [Tally(e, 1)]
    else if t[0].edge == e then [Tally(e, t[0].n + 1)] + t[1..]
    else [t[0]] + Bump(t[1..], e)
  }

  function TallyOf(es: seq<Edge>): seq<Tally>
  {
    if es == [] then [] else Bump(TallyOf(es[..|es| - 1]), es[|es| - 1])
  }

  function EdgesOf(rows: seq<Relayed>, bbs: string): seq<Edge>
  {
    if rows == [] then []
    else
      var n := |rows| - 1;
      EdgesOf(rows[..n], bbs) + ConfirmedEdges(Upper(rows[n].callsign), rows[n].via, bbs)
  }

  predicate Distinct(t: seq<Tally>)
  {
    forall i, j :: 0 <= i < j < |t| ==> t[i].edge != t[j].edge
  }

  ghost predicate Counts(t: seq<Tally>, es: seq<Edge>)
  {
    && (forall x :: x in t ==> x.n == multiset(es)[x.edge] && x.n > 0)
    && (forall e :: e in es ==> exists x :: x in t && x.edge == e)
  }

  lemma {:induction false} BumpAdds(t: seq<Tally>, e: Edge)
    requires Distinct(t)
    ensures Distinct(Bump(t, e))
    ensures forall x :: x in Bump(t, e) && x.edge != e ==> x in t
    ensures forall x :: x in t && x.edge != e ==> x in Bump(t, e)
    ensures forall x :: x in Bump(t, e) && x.edge == e ==>
              (x.n == 1 && forall y :: y in t ==> y.edge != e) || (x.n > 0 && Tally(e, x.n - 1) in t)
    ensures exists x :: x in Bump(t, e) && x.edge == e
  {
    if t == [] {
      assert Tally(e, 1) in Bump(t, e);
    } else if t[0].edge == e {
      assert Bump(t, e)[0] == Tally(e, t[0].n + 1);
      assert t == [t[0]] + t[1..];
    } else {
      BumpAdds(t[1..], e);
      assert t == [t[0]] + t[1..];
      var b := Bump(t[1..], e);
      forall i | 0 <= i < |b| ensures b[i].edge != t[0].edge {
        assert b[i] in b;
        assert b[i].edge != e ==> b[i] in t[1..];
      }
    }
  }

  lemma BumpCounts(t: seq<Tally>, es: seq<Edge>, e: Edge)
    requires Distinct(t) && Counts(t, es)
    ensures Counts(Bump(t, e), es + [e])
  {
    BumpAdds(t, e);
    hide Bump, Distinct;
    var u := Bump(t, e);
    forall x | x in u ensures x.n == multiset(es + [e])[x.edge] && x.n > 0 {
      if x.edge == e && Tally(e, x.n - 1) !in t {
        assert e !in es;
      }
    }
    forall f | f in es + [e] ensures exists x :: x in u && x.edge == f {
      if f != e {
        assert f in es;
        var x :| x in t && x.edge == f;
        assert x in u;
      }
    }
  }

  /** Every confirmed hop is counted once, with the number of times it was seen. */
  lemma {:induction false} TallyCounts(es: seq<Edge>)
    ensures Distinct(TallyOf(es)) && Counts(TallyOf(es), es)
  {
    if es != [] {
      hide Counts, Distinct, Bump;
      var n := |es| - 1;
      TallyCounts(es[..n]);
      BumpAdds(TallyOf(es[..n]), es[n]);
      BumpCounts(TallyOf(es[..n]), es[..n], es[n]);
      assert es == es[..n] + [es[n]];
    }
  }

  /** The digipeaters are the stations, other than the BBS, that some confirmed hop leads to. */
  lemma DigisAreRelays(rows: seq<Relayed>, bbs: string, n: string)
    ensures n in Digis(TallyOf(EdgesOf(rows, bbs)), bbs) <==>
              n != bbs && exists e :: e in EdgesOf(rows, bbs) && e.to == n
  {
    var es := EdgesOf(rows, bbs);
    TallyCounts(es);
    hide TallyOf, EdgesOf;
    var t := TallyOf(es);
    if n in Targets(t) {
      var x :| x in t && x.edge.to == n;
      assert x.edge in multiset(es);
      assert x.edge in es;
    }
    if e :| e in es && e.to == n {
      var x :| x in t && x.edge == e;
    }
  }

  // ---------- The best parent ----------

  function Score(b: Option<Tally>): nat { if b.Some? then b.value.n else 0 }

  /** The hop out of `node` seen most often; the earliest of equals. */
  function BestOf(t: seq<Tally>, node: string): Option<Tally>
  {
    if t == [] then None
    else
      var best, x := BestOf(t[..|t| - 1], node), t[|t| - 1];
      if x.edge.from == node && x.n > Score(best) then Some(x) else best
  }

  /** A best parent with an empty name does not count. */
  function ParentIn(t: seq<Tally>, node: string): Option<string>
  {
    match BestOf(t, node)
    case Some(x) => if x.edge.to != [] then Some(x.edge.to) else None
    case None => None
  }

  /** The best parent is the target of a hop seen at least as often as any other out of the
      node, and more often than any seen earlier. */
  lemma {:induction false} BestIsBest(t: seq<Tally>, node: string)
    requires forall x :: x in t ==> x.n > 0
    ensures var best := BestOf(t, node);
      match best
      case None => forall x :: x in t ==> x.edge.from != node
      case Some(b) =>
        && b.edge.from == node
        && (forall x :: x in t && x.edge.from == node ==> x.n <= b.n)
        && exists k :: 0 <= k < |t| && t[k] == b && forall i :: 0 <= i < k && t[i].edge.from == node ==> t[i].n < b.n
  {
    if t != [] {
      var n := |t| - 1;
      assert t == t[..n] + [t[n]];
      forall x | x in t[..n] ensures x.n > 0 {
        assert x in t;
      }
      BestIsBest(t[..n], node);
      if t[n].edge.from == node && t[n].n > Score(BestOf(t[..n], node)) {
        forall i | 0 <= i < n && t[i].edge.from == node ensures t[i].n < t[n].n {
          assert t[i] in t[..n];
        }
      } else if BestOf(t[..n], node).Some? {
        var b := BestOf(t[..n], node).value;
        var k :| 0 <= k < n && t[..n][k] == b && forall i :: 0 <= i < k && t[..n][i].edge.from == node ==> t[..n][i].n < b.n;
        assert t[k] == b && forall i :: 0 <= i < k && t[i].edge.from == node ==> t[i].n < b.n;
      }
    }
  }

  function Targets(t: seq<Tally>): set<string> { set x | x in t :: x.edge.to }

  function Sources(t: seq<Tally>): set<string> { set x | x in t :: x.edge.from }

  function Digis(t: seq<Tally>, bbs: string): set<string> { Targets(t) - {bbs} }

  function Nodes(t: seq<Tally>, bbs: string): set<string> { Targets(t) + Sources(t) - {bbs} }

  function Parents(t: seq<Tally>, bbs: string): map<string, string>
  {
    map n | n in Nodes(t, bbs) && ParentIn(t, n).Some? :: ParentIn(t, n).value
  }

  // ---------- The chart ----------

  datatype Chart = Chart(
    bbs: string, digis: set<string>, parent: map<string, string>,
    children: map<string, seq<string>>, stations: map<string, seq<string>>, direct: seq<string>)

  function Listed(lists: map<string, seq<string>>, p: string): seq<string>
  {
    if p in lists then lists[p] else []
  }

  /** Digipeaters before stations, and by name among each. */
  predicate Before(digis: set<string>, a: string, b: string)
  {
    if (a in digis) != (b in digis) then a in digis else a != b && Leq(a, b)
  }

  predicate InOrder(digis: set<string>, s: seq<string>)
  {
    forall i, j :: 0 <= i < j < |s| ==> Before(digis, s[i], s[j])
  }

  /** Under each parent, those of `members` whose best parent it is, in order. */
  ghost predicate Groups(lists: map<string, seq<string>>, members: set<string>, parent: map<string, string>, digis: set<string>)
  {
    && (forall p, n :: n in Listed(lists, p) <==> n in members && n in parent && parent[n] == p)
    && (forall p :: InOrder(digis, Listed(lists, p)))
  }

  function Stations(rows: seq<Relayed>): set<string>
  {
    set r | r in rows :: Upper(r.callsign)
  }

  /** What the map data must be for what was heard. */
  ghost predicate Charts(c: Chart, rows: seq<Relayed>, bbs: string)
  {
    var t := TallyOf(EdgesOf(rows, bbs));
    && c.bbs == bbs && c.digis == Digis(t, bbs) && c.parent == Parents(t, bbs)
    && Groups(c.children, c.parent.Keys, c.parent, c.digis)
    && Groups(c.stations, Stations(rows) - c.digis, c.parent, c.digis)
  }

  // ---------- Building it ----------

  method TallyEdges(rows: seq<Relayed>, bbs: string) returns (t: seq<Tally>, sources: set<string>)
    ensures t == TallyOf(EdgesOf(rows, bbs)) && sources == Stations(rows)
  {
    hide ConfirmedEdges, Bump, Upper;
    t, sources := [], {};
    for i := 0 to |rows|
      invariant t == TallyOf(EdgesOf(rows[..i], bbs))
      invariant sources == Stations(rows[..i])
    {
      assert rows[..i + 1][..i] == rows[..i];
      assert rows[..i + 1] == rows[..i] + [rows[i]];
      var src := Upper(rows[i].callsign);
      sources := sources + {src};
      ghost var before := EdgesOf(rows[..i], bbs);
      var es := ConfirmedEdges(src, rows[i].via, bbs);
      assert before + es[..0] == before;
      for j := 0 to |es|
        invariant t == TallyOf(before + es[..j])
      {
        assert (before + es[..j + 1])[..|before| + j] == before + es[..j];
        t := Bump(t, es[j]);
      }
      assert es[..|es|] == es;
    }
    assert rows[..|rows|] == rows;
  }

  method BestParent(t: seq<Tally>, node: string) returns (best: Option<string>)
    ensures best == ParentIn(t, node)
  {
    var top: Option<Tally> := None;
    for i := 0 to |t|
      invariant top == BestOf(t[..i], node)
    {
      assert t[..i + 1][..i] == t[..i];
      if t[i].edge.from == node && t[i].n > Score(top) {
        top := Some(t[i]);
      }
    }
    assert t[..|t|] == t;
    best := if top.Some? && top.value.edge.to != [] then Some(top.value.edge.to) else None;
  }

  method ChooseParents(t: seq<Tally>, bbs: string) returns (parent: map<string, string>)
    ensures parent == Parents(t, bbs)
  {
    hide BestOf;
    parent := map[];
    var todo := Nodes(t, bbs);
    while todo != {}
      invariant todo <= Nodes(t, bbs)
      invariant parent == map n | n in Nodes(t, bbs) - todo && ParentIn(t, n).Some? :: ParentIn(t, n).value
      decreases todo
    {
      var node :| node in todo;
      todo := todo - {node};
      var best := BestParent(t, node);
      if best.Some? {
        parent := parent[node := best.value];
      }
    }
  }

  ghost predicate Collected(lists: map<string, seq<string>>, members: set<string>, parent: map<string, string>)
  {
    && (forall p, n :: n in Listed(lists, p) <==> n in members && n in parent && parent[n] == p)
    && (forall p :: NoDoubles(Listed(lists, p)))
  }

  method Collect(members: set<string>, parent: map<string, string>) returns (lists: map<string, seq<string>>)
    ensures Collected(lists, members, parent)
  {
    hide Collected;
    lists := map[];
    var todo := members;
    NoneCollected(parent);
    assert members - todo == {};
    while todo != {}
      invariant todo <= members && Collected(lists, members - todo, parent)
      decreases todo
    {
      var node :| node in todo;
      ghost var done := members - todo;
      todo := todo - {node};
      assert members - todo == done + {node};
      CollectOne(lists, done, parent, node);
      if node in parent {
        lists := lists[parent[node] := Listed(lists, parent[node]) + [node]];
      }
    }
    assert members - todo == members;
  }

  lemma NoneCollected(parent: map<string, string>)
    ensures Collected(map[], {}, parent)
  {
  }

  lemma CollectOne(lists: map<string, seq<string>>, done: set<string>, parent: map<string, string>, node: string)
    requires Collected(lists, done, parent) && node !in done
    ensures if node in parent
            then Collected(lists[parent[node] := Listed(lists, parent[node]) + [node]], done + {node}, parent)
            else Collected(lists, done + {node}, parent)
  {
    if node in parent {
      var p := parent[node];
      var more := lists[p := Listed(lists, p) + [node]];
      assert node !in Listed(lists, p);
      assert NoDoubles(Listed(lists, p));
      forall q ensures NoDoubles(Listed(more, q)) {
        assert NoDoubles(Listed(lists, q));
        assert q != p ==> Listed(more, q) == Listed(lists, q);
      }
      forall q, n ensures n in Listed(more, q) <==> n in done + {node} && n in parent && parent[n] == q {
        assert n in Listed(lists, q) <==> n in done && n in parent && parent[n] == q;
        assert q != p ==> Listed(more, q) == Listed(lists, q);
      }
    }
  }

  function InsertName(digis: set<string>, x: string, s: seq<string>): seq<string>
  {
    if s == [] || Before(digis, x, s[0]) then [x] + s else [s[0]] + InsertName(digis, x, s[1..])
  }

  function SortNames(digis: set<string>, s: seq<string>): seq<string>
  {
    if s == [] then [] else InsertName(digis, s[0], SortNames(digis, s[1..]))
  }

  lemma BeforeTransitive(digis: set<string>, a: string, b: string, c: string)
    requires Before(digis, a, b) && Before(digis, b, c)
    ensures Before(digis, a, c)
  {
    if Leq(a, b) && Leq(b, c) {
      LeqTransitive(a, b, c);
      LeqTotal(a, b);
    }
  }

  lemma {:induction false} InsertNameKeeps(digis: set<string>, x: string, s: seq<string>)
    requires InOrder(digis, s) && x !in s
    ensures InOrder(digis, InsertName(digis, x, s))
    ensures forall y :: y in InsertName(digis, x, s) <==> y == x || y in s
  {
    hide Before;
    if s != [] {
      assert s == [s[0]] + s[1..];
      if Before(digis, x, s[0]) {
        forall j | 0 <= j < |s| ensures Before(digis, x, s[j]) {
          if j > 0 {
            BeforeTransitive(digis, x, s[0], s[j]);
          }
        }
      } else {
        InsertNameKeeps(digis, x, s[1..]);
        OneWay(digis, x, s[0]);
        var u := InsertName(digis, x, s[1..]);
        forall j | 0 <= j < |u| ensures Before(digis, s[0], u[j]) {
          assert u[j] in u;
          if u[j] != x {
            var k :| 0 <= k < |s[1..]| && s[1..][k] == u[j];
            assert s[k + 1] == u[j];
          }
        }
      }
    }
  }

  lemma OneWay(digis: set<string>, a: string, b: string)
    requires a != b && !Before(digis, a, b)
    ensures Before(digis, b, a)
  {
    LeqTotal(a, b);
  }

  lemma {:induction false} SortNamesSorts(digis: set<string>, s: seq<string>)
    requires NoDoubles(s)
    ensures InOrder(digis, SortNames(digis, s))
    ensures forall y :: y in SortNames(digis, s) <==> y in s
  {
    if s != [] {
      SortNamesSorts(digis, s[1..]);
      assert s == [s[0]] + s[1..];
      assert s[0] !in s[1..];
      InsertNameKeeps(digis, s[0], SortNames(digis, s[1..]));
    }
  }

  method SortLists(digis: set<string>, lists: map<string, seq<string>>, ghost members: set<string>, ghost parent: map<string, string>)
    returns (sorted: map<string, seq<string>>)
    requires Collected(lists, members, parent)
    ensures Groups(sorted, members, parent, digis)
  {
    hide SortNames, InOrder;
    sorted := lists;
    var todo := lists.Keys;
    while todo != {}
      invariant todo <= lists.Keys && sorted.Keys == lists.Keys
      invariant forall p :: p in lists ==> sorted[p] == if p in todo then lists[p] else SortNames(digis, lists[p])
      decreases todo
    {
      var p :| p in todo;
      todo := todo - {p};
      sorted := sorted[p := SortNames(digis, sorted[p])];
    }
    forall p ensures InOrder(digis, Listed(sorted, p)) && forall n :: n in Listed(sorted, p) <==> n in Listed(lists, p) {
      assert NoDoubles(Listed(lists, p));
      SortNamesSorts(digis, Listed(lists, p));
      assert Listed(sorted, p) == SortNames(digis, Listed(lists, p)) by { SortNothing(digis); }
    }
  }

  lemma SortNothing(digis: set<string>)
    ensures SortNames(digis, []) == []
  {
  }

  method BuildMapData(rows: seq<Relayed>, direct: seq<string>, bbs: string) returns (c: Chart)
    ensures Charts(c, rows, bbs) && c.direct == direct
  {
    hide TallyOf, EdgesOf, Parents, Stations, Groups, Collected;
    var t, sources := TallyEdges(rows, bbs);
    var digis := Digis(t, bbs);
    var parent := ChooseParents(t, bbs);
    var children := Collect(parent.Keys, parent);
    children := SortLists(digis, children, parent.Keys, parent);
    var stations := Collect(sources - digis, parent);
    stations := SortLists(digis, stations, sources - digis, parent);
    c := Chart(bbs, digis, parent, children, stations, direct);
  }
}

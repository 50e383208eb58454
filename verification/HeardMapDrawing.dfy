/** Drawing the network map: the recursion down the tree, which ends on every set of hops, and
    what it draws. */
module HeardMapDrawing {
  import opened Prelude
  import opened HeardPaths
  import opened HeardMap

  // ---------- Chains of best parents ----------

  /** From the BBS down: each node's best parent is the one before it. */
  predicate Chain(c: Chart, path: seq<string>)
  {
    && path != [] && path[0] == c.bbs
    && forall i :: 0 < i < |path| ==> path[i] in c.parent && c.parent[path[i]] == path[i - 1]
  }

  ghost predicate Reaches(c: Chart, node: string)
  {
    exists path :: Chain(c, path) && path[|path| - 1] == node
  }

  /** What the drawing relies on; every chart that is built has it. */
  ghost predicate Rooted(c: Chart)
  {
    && c.bbs !in c.parent && c.bbs !in c.digis
    && (forall n :: n in c.parent ==> c.parent[n] == c.bbs || c.parent[n] in c.digis)
    && Groups(c.children, c.parent.Keys, c.parent, c.digis)
  }

  lemma {:induction false} BestHasSource(t: seq<Tally>, node: string)
    ensures var best := BestOf(t, node); best.Some? ==> best.value in t
  {
    if t != [] {
      BestHasSource(t[..|t| - 1], node);
    }
  }

  lemma ChartsAreRooted(c: Chart, rows: seq<Relayed>, bbs: string)
    requires Charts(c, rows, bbs)
    ensures Rooted(c)
  {
    var t := TallyOf(EdgesOf(rows, bbs));
    hide TallyOf, EdgesOf, BestOf, Groups;
    forall n | n in c.parent ensures c.parent[n] == c.bbs || c.parent[n] in c.digis {
      BestHasSource(t, n);
    }
  }

  /** A node has one parent and the BBS none, so a chain to a node is the only one. */
  lemma {:induction false} ChainIsUnique(c: Chart, p: seq<string>, q: seq<string>)
    requires c.bbs !in c.parent && Chain(c, p) && Chain(c, q) && p[|p| - 1] == q[|q| - 1]
    ensures p == q
    decreases |p|
  {
    if |p| > 1 && |q| > 1 {
      ChainPrefix(c, p, |p| - 1);
      ChainPrefix(c, q, |q| - 1);
      ChainIsUnique(c, p[..|p| - 1], q[..|q| - 1]);
      assert p == p[..|p| - 1] + [p[|p| - 1]] && q == q[..|q| - 1] + [q[|q| - 1]];
    }
  }

  lemma ChainPrefix(c: Chart, p: seq<string>, k: nat)
    requires Chain(c, p) && 0 < k <= |p|
    ensures Chain(c, p[..k])
  {
  }

  /** So no node comes twice on a chain, ... */
  lemma ChainIsSimple(c: Chart, p: seq<string>, i: nat, j: nat)
    requires c.bbs !in c.parent && Chain(c, p) && i < j < |p|
    ensures p[i] != p[j]
  {
    if p[i] == p[j] {
      ChainPrefix(c, p, i + 1);
      ChainPrefix(c, p, j + 1);
      ChainIsUnique(c, p[..i + 1], p[..j + 1]);
    }
  }

  /** ... all but the BBS and perhaps the last are digipeaters, ... */
  lemma ChainOfDigis(c: Chart, p: seq<string>, i: nat)
    requires Rooted(c) && Chain(c, p) && 0 < i < |p| - 1
    ensures p[i] in c.digis
  {
    assert c.parent[p[i + 1]] == p[i] && p[i] in c.parent;
  }

  lemma {:induction false} DistinctFit(s: seq<string>, within: set<string>)
    requires NoDoubles(s) && forall x :: x in s ==> x in within
    ensures |s| <= |within|
  {
    if s != [] {
      var n := |s| - 1;
      forall x | x in s[..n] ensures x in within - {s[n]} {
        assert x in s;
      }
      DistinctFit(s[..n], within - {s[n]});
    }
  }

  /** ... and a chain to a digipeater is no longer than there are digipeaters. */
  lemma ChainFits(c: Chart, p: seq<string>)
    requires Rooted(c) && Chain(c, p) && (|p| == 1 || p[|p| - 1] in c.digis)
    ensures |p| <= |c.digis| + 1
  {
    forall i, j | 0 <= i < j < |p[1..]| ensures p[1..][i] != p[1..][j] {
      ChainIsSimple(c, p, i + 1, j + 1);
    }
    forall x | x in p[1..] ensures x in c.digis {
      var i :| 0 <= i < |p[1..]| && p[1..][i] == x;
      if i + 1 < |p| - 1 {
        ChainOfDigis(c, p, i + 1);
      }
    }
    hide Chain, Rooted;
    DistinctFit(p[1..], c.digis);
  }

  // ---------- The lines ----------

  /** A station list is wrapped to the terminal's width when it is printed. */
  datatype Line =
    | Title(bbs: string)
    | NothingYet
    | Digi(lead: string, name: string, count: nat)
    | Calls(lead: string, calls: seq<string>)
    | DirectCount(lead: string, count: nat)
    | DirectList(lead: string)

  function Conn(isLast: bool): string { if isLast then "\\--" else "+--" }

  function Indent(isLast: bool): string { if isLast then "   " else "|  " }

  function DigisIn(c: Chart, s: seq<string>): seq<string>
  {
    if s == [] then []
    else DigisIn(c, s[..|s| - 1]) + if s[|s| - 1] in c.digis then [s[|s| - 1]] else []
  }

  function DigiChildren(c: Chart, node: string): seq<string>
  {
    DigisIn(c, Listed(c.children, node))
  }

  function StationsLast(c: Chart, node: string, digisOnly: bool): bool
  {
    !digisOnly && Listed(c.stations, node) != []
  }

  lemma {:induction false} DigisInAre(c: Chart, s: seq<string>)
    ensures forall x :: x in DigisIn(c, s) <==> x in s && x in c.digis
    ensures InOrder(c.digis, s) ==> InOrder(c.digis, DigisIn(c, s))
  {
    if s != [] {
      var n := |s| - 1;
      DigisInAre(c, s[..n]);
      assert s == s[..n] + [s[n]];
      var d := DigisIn(c, s[..n]);
      forall i | 0 <= i < |d| ensures InOrder(c.digis, s) ==> Before(c.digis, d[i], s[n]) {
        assert d[i] in s[..n];
      }
      hide Before;
    }
  }

  /** A child that is a digipeater extends the chain. */
  lemma ChildExtends(c: Chart, path: seq<string>, child: string)
    requires Rooted(c) && Chain(c, path) && child in DigiChildren(c, path[|path| - 1])
    ensures Chain(c, path + [child]) && child in c.digis && |path| <= |c.digis|
  {
    hide DigisIn, InOrder;
    DigisInAre(c, Listed(c.children, path[|path| - 1]));
    IsChild(c, path[|path| - 1], child);
    hide Rooted;
    assert Chain(c, path + [child]);
    ChainFits(c, path + [child]);
  }

  lemma IsChild(c: Chart, node: string, child: string)
    requires Rooted(c)
    ensures child in Listed(c.children, node) <==> child in c.parent && c.parent[child] == node
  {
  }

  /** One digipeater and everything below it. `path` is the chain down to it: the recursion ends
      because chains do not outgrow the digipeaters. */
  function NodeLines(c: Chart, pfx: string, isLast: bool, digisOnly: bool, ghost path: seq<string>, node: string): seq<Line>
    requires Rooted(c) && Chain(c, path) && path[|path| - 1] == node && node in c.digis
    decreases |c.digis| + 1 - |path|, 1, 0
  {
    ChainFits(c, path);
    var subs := DigiChildren(c, node);
    var inner := pfx + Indent(isLast);
    [Digi(pfx + Conn(isLast), node, |Listed(c.stations, node)|)]
    + ChildLines(c, inner, StationsLast(c, node, digisOnly), digisOnly, path, subs, |subs|)
    + if StationsLast(c, node, digisOnly) then [Calls(inner + Conn(true), Listed(c.stations, node))] else []
  }

  /** The first k children of the end of `path`; the last child is drawn as the last only when
      nothing `more` follows it. */
  function ChildLines(c: Chart, pfx: string, more: bool, digisOnly: bool, ghost path: seq<string>, subs: seq<string>, k: nat): seq<Line>
    requires Rooted(c) && Chain(c, path) && subs == DigiChildren(c, path[|path| - 1]) && k <= |subs|
    requires |path| <= |c.digis| + 1
    decreases |c.digis| + 1 - |path|, 0, k
  {
    if k == 0 then []
    else
      ChildExtends(c, path, subs[k - 1]);
      ChildLines(c, pfx, more, digisOnly, path, subs, k - 1)
      + NodeLines(c, pfx, k == |subs| && !more, digisOnly, path + [subs[k - 1]], subs[k - 1])
  }

  /** The stations heard without a digipeater. */
  function DirectLines(c: Chart, digisOnly: bool): seq<Line>
  {
    if c.direct == [] then []
    else if digisOnly then [DirectCount(Conn(true), |c.direct|)]
    else [DirectList(Conn(true)), Calls(Indent(true), c.direct)]
  }

  function MapLines(c: Chart, digisOnly: bool): seq<Line>
    requires Rooted(c)
  {
    var subs, some := DigiChildren(c, c.bbs), c.direct != [];
    if subs == [] && !some then [Title(c.bbs), NothingYet]
    else
      assert Chain(c, [c.bbs]);
      [Title(c.bbs)] + ChildLines(c, "", some, digisOnly, [c.bbs], subs, |subs|) + DirectLines(c, digisOnly)
  }

  method DrawNode(c: Chart, pfx: string, isLast: bool, digisOnly: bool, ghost path: seq<string>, node: string)
    returns (result: seq<Line>)
    requires Rooted(c) && Chain(c, path) && path[|path| - 1] == node && node in c.digis
    ensures result == NodeLines(c, pfx, isLast, digisOnly, path, node)
    decreases |c.digis| + 1 - |path|
  {
    hide Rooted, Chain, DigiChildren;
    ChainFits(c, path);
    var inner := pfx + Indent(isLast);
    result := [Digi(pfx + Conn(isLast), node, |Listed(c.stations, node)|)];
    ghost var head := result;
    var subs := DigiChildren(c, node);
    var some := !digisOnly && Listed(c.stations, node) != [];
    for j := 0 to |subs|
      invariant result == head + ChildLines(c, inner, some, digisOnly, path, subs, j)
    {
      ChildExtends(c, path, subs[j]);
      var below := DrawNode(c, inner, j == |subs| - 1 && !some, digisOnly, path + [subs[j]], subs[j]);
      result := result + below;
    }
    if some {
      result := result + [Calls(inner + Conn(true), Listed(c.stations, node))];
    }
  }

  method DrawMap(c: Chart, digisOnly: bool) returns (lines: seq<Line>)
    requires Rooted(c)
    ensures lines == MapLines(c, digisOnly)
  {
    var subs, some := DigiChildren(c, c.bbs), c.direct != [];
    if subs == [] && !some {
      return [Title(c.bbs), NothingYet];
    }
    assert Chain(c, [c.bbs]);
    hide Rooted, Chain, DigiChildren;
    lines := [Title(c.bbs)];
    for i := 0 to |subs|
      invariant lines == [Title(c.bbs)] + ChildLines(c, "", some, digisOnly, [c.bbs], subs, i)
    {
      ChildExtends(c, [c.bbs], subs[i]);
      var below := DrawNode(c, "", i == |subs| - 1 && !some, digisOnly, [c.bbs] + [subs[i]], subs[i]);
      lines := lines + below;
    }
    if some && digisOnly {
      lines := lines + [DirectCount(Conn(true), |c.direct|)];
    } else if some {
      lines := lines + [DirectList(Conn(true))];
      lines := lines + [Calls(Indent(true), c.direct)];
    }
  }

  // ---------- What is drawn ----------

  function Drawn(lines: seq<Line>): seq<string>
  {
    if lines == [] then []
    else Drawn(lines[..|lines| - 1]) + match lines[|lines| - 1] case Digi(_, name, _) => [name] case _ => []
  }

  lemma {:induction false} DrawnConcat(a: seq<Line>, b: seq<Line>)
    ensures Drawn(a + b) == Drawn(a) + Drawn(b)
  {
    if b == [] {
      assert a + b == a;
    } else {
      var n := |b| - 1;
      DrawnConcat(a, b[..n]);
      assert (a + b)[..|a + b| - 1] == a + b[..n];
    }
  }

  lemma DrawnOne(l: Line)
    ensures Drawn([l]) == match l case Digi(_, name, _) => [name] case _ => []
  {
    assert [l][..0] == [];
    assert Drawn([]) == [];
  }

  predicate Extends(whole: seq<string>, path: seq<string>) { |path| <= |whole| && whole[..|path|] == path }

  /** A digipeater whose chain runs down `path`. */
  ghost predicate Under(c: Chart, path: seq<string>, n: string)
  {
    n in c.digis && exists whole :: Chain(c, whole) && whole[|whole| - 1] == n && Extends(whole, path)
  }

  /** The names drawn are those of the chains below, each once. */
  ghost predicate DrawsBelow(c: Chart, path: seq<string>, names: seq<string>)
  {
    NoDoubles(names) && forall n :: n in names <==> Under(c, path, n)
  }

  /** ... and for the first k children. */
  ghost predicate DrawsChildren(c: Chart, path: seq<string>, subs: seq<string>, k: nat, names: seq<string>)
    requires k <= |subs|
  {
    && NoDoubles(names)
    && forall n :: n in names <==> exists i :: 0 <= i < k && Under(c, path + [subs[i]], n)
  }

  lemma Disjoint(c: Chart, path: seq<string>, a: string, b: string, n: string)
    requires Rooted(c) && Under(c, path + [a], n) && Under(c, path + [b], n)
    ensures a == b
  {
    var p :| Chain(c, p) && p[|p| - 1] == n && Extends(p, path + [a]);
    var q :| Chain(c, q) && q[|q| - 1] == n && Extends(q, path + [b]);
    ChainIsUnique(c, p, q);
    assert p[..|path| + 1][|path|] == a && q[..|path| + 1][|path|] == b;
  }

  lemma NoDoublesConcat(a: seq<string>, b: seq<string>)
    requires NoDoubles(a) && NoDoubles(b) && forall x :: x in a ==> x !in b
    ensures NoDoubles(a + b)
  {
    var s := a + b;
    forall i, j | 0 <= i < j < |s| ensures s[i] != s[j] {
      if i < |a| <= j {
        assert s[i] in a && s[j] in b;
      }
    }
  }

  lemma NoSiblingTwice(c: Chart, path: seq<string>, subs: seq<string>, k: nat, front: seq<string>, last: seq<string>)
    requires Rooted(c) && k < |subs| && NoDoubles(subs)
    requires DrawsChildren(c, path, subs, k, front) && DrawsBelow(c, path + [subs[k]], last)
    ensures DrawsChildren(c, path, subs, k + 1, front + last)
  {
    hide Rooted, Under;
    forall x | x in front ensures x !in last {
      if x in last {
        var i :| 0 <= i < k && Under(c, path + [subs[i]], x);
        Disjoint(c, path, subs[i], subs[k], x);
      }
    }
    NoDoublesConcat(front, last);
    forall n ensures n in front + last <==> exists i :: 0 <= i < k + 1 && Under(c, path + [subs[i]], n) {
      if n in last {
        assert Under(c, path + [subs[k]], n);
      }
      if i :| 0 <= i < k + 1 && Under(c, path + [subs[i]], n) {
        if i < k {
          assert n in front;
        }
      }
    }
  }

  lemma OrderedNoDoubles(digis: set<string>, s: seq<string>)
    requires InOrder(digis, s)
    ensures NoDoubles(s)
  {
    forall i, j | 0 <= i < j < |s| ensures s[i] != s[j] {
      assert Before(digis, s[i], s[j]);
    }
  }

  lemma ChildrenDistinct(c: Chart, node: string)
    requires Rooted(c)
    ensures NoDoubles(DigiChildren(c, node))
  {
    DigisInAre(c, Listed(c.children, node));
    assert InOrder(c.digis, Listed(c.children, node));
    OrderedNoDoubles(c.digis, DigiChildren(c, node));
  }

  lemma ProperExtension(whole: seq<string>, path: seq<string>)
    requires Extends(whole, path) && whole != path
    ensures |path| < |whole|
  {
    assert whole[..|whole|] == whole;
  }

  /** Below a node are the node itself and what is below its children. */
  lemma BelowSplits(c: Chart, path: seq<string>, n: string)
    requires Rooted(c) && Chain(c, path)
    ensures var node := path[|path| - 1]; var subs := DigiChildren(c, node);
      Under(c, path, n) <==> (n == node && n in c.digis) || exists i :: 0 <= i < |subs| && Under(c, path + [subs[i]], n)
  {
    var node := path[|path| - 1];
    var subs := DigiChildren(c, node);
    if Under(c, path, n) && !(n == node && n in c.digis) {
      var whole :| Chain(c, whole) && whole[|whole| - 1] == n && Extends(whole, path);
      var k := |path|;
      ProperExtension(whole, path);
      NextIsChild(c, path, whole);
      var i :| 0 <= i < |subs| && subs[i] == whole[k];
      assert whole[..k + 1] == path + [subs[i]];
      assert Extends(whole, path + [subs[i]]);
    }
    if n == node && n in c.digis {
      assert Extends(path, path);
    }
    if i :| 0 <= i < |subs| && Under(c, path + [subs[i]], n) {
      var whole :| Chain(c, whole) && whole[|whole| - 1] == n && Extends(whole, path + [subs[i]]);
      assert whole[..|path|] == (path + [subs[i]])[..|path|] == path;
      assert Extends(whole, path);
    }
  }

  lemma NextIsChild(c: Chart, path: seq<string>, whole: seq<string>)
    requires Rooted(c) && path != [] && Chain(c, whole) && Extends(whole, path) && |path| < |whole|
    requires whole[|whole| - 1] in c.digis
    ensures whole[|path|] in DigiChildren(c, path[|path| - 1])
  {
    var k := |path|;
    assert whole[k - 1] == path[k - 1];
    if k < |whole| - 1 {
      ChainOfDigis(c, whole, k);
    }
    DigisInAre(c, Listed(c.children, path[k - 1]));
    assert whole[k] in Listed(c.children, path[k - 1]);
  }

  lemma {:induction false} NodeDraws(c: Chart, pfx: string, isLast: bool, digisOnly: bool, path: seq<string>, node: string)
    requires Rooted(c) && path != [] && Chain(c, path) && path[|path| - 1] == node && node in c.digis
    ensures DrawsBelow(c, path, Drawn(NodeLines(c, pfx, isLast, digisOnly, path, node)))
    decreases |c.digis| + 1 - |path|, 1, 0
  {
    hide Rooted, Chain, DigiChildren, Under, ChildLines, Drawn;
    ChainFits(c, path);
    var subs, some := DigiChildren(c, node), StationsLast(c, node, digisOnly);
    var inner := pfx + Indent(isLast);
    var below := ChildLines(c, inner, some, digisOnly, path, subs, |subs|);
    ChildrenDraw(c, inner, some, digisOnly, path, subs, |subs|);
    var head := [Digi(pfx + Conn(isLast), node, |Listed(c.stations, node)|)];
    var tail := if some then [Calls(inner + Conn(true), Listed(c.stations, node))] else [];
    DrawnConcat(head + below, tail);
    DrawnConcat(head, below);
    DrawnOne(head[0]);
    DrawnTail(tail);
    assert Drawn(head + below + tail) == [node] + Drawn(below);
    NodeFirst(c, path, node, Drawn(below));
  }

  lemma DrawnTail(tail: seq<Line>)
    requires |tail| <= 1 && forall l :: l in tail ==> !l.Digi?
    ensures Drawn(tail) == []
  {
    if tail != [] {
      assert tail == [tail[0]] && tail[0] in tail;
      DrawnOne(tail[0]);
    }
  }

  lemma NodeFirst(c: Chart, path: seq<string>, node: string, below: seq<string>)
    requires Rooted(c) && Chain(c, path) && path[|path| - 1] == node && node in c.digis
    requires var subs := DigiChildren(c, node); DrawsChildren(c, path, subs, |subs|, below)
    ensures DrawsBelow(c, path, [node] + below)
  {
    hide Rooted, Chain, DigiChildren, Under;
    var subs := DigiChildren(c, node);
    if node in below {
      var i :| 0 <= i < |subs| && Under(c, path + [subs[i]], node);
      NotBelowItself(c, path, node, subs[i]);
    }
    NoDoublesConcat([node], below);
    forall n ensures n in [node] + below <==> Under(c, path, n) {
      BelowSplits(c, path, n);
    }
  }

  lemma NotBelowItself(c: Chart, path: seq<string>, node: string, child: string)
    requires Rooted(c) && Chain(c, path) && path[|path| - 1] == node
    ensures !Under(c, path + [child], node)
  {
    if Under(c, path + [child], node) {
      var whole :| Chain(c, whole) && whole[|whole| - 1] == node && Extends(whole, path + [child]);
      ChainIsUnique(c, whole, path);
    }
  }

  lemma {:induction false} ChildrenDraw(c: Chart, pfx: string, more: bool, digisOnly: bool, path: seq<string>, subs: seq<string>, k: nat)
    requires Rooted(c) && path != [] && Chain(c, path) && subs == DigiChildren(c, path[|path| - 1]) && k <= |subs|
    requires |path| <= |c.digis| + 1
    ensures DrawsChildren(c, path, subs, k, Drawn(ChildLines(c, pfx, more, digisOnly, path, subs, k)))
    decreases |c.digis| + 1 - |path|, 0, k
  {
    hide Rooted, Chain, DigiChildren, Under, NodeLines, DrawsChildren, DrawsBelow;
    if k == 0 {
      NoneDrawn(c, path, subs);
    } else {
      var child := subs[k - 1];
      ChildExtends(c, path, child);
      ChildrenDistinct(c, path[|path| - 1]);
      ChildrenDraw(c, pfx, more, digisOnly, path, subs, k - 1);
      NodeDraws(c, pfx, k == |subs| && !more, digisOnly, path + [child], child);
      var front := ChildLines(c, pfx, more, digisOnly, path, subs, k - 1);
      var last := NodeLines(c, pfx, k == |subs| && !more, digisOnly, path + [child], child);
      DrawnConcat(front, last);
      hide Drawn, ChildLines;
      NoSiblingTwice(c, path, subs, k - 1, Drawn(front), Drawn(last));
    }
  }

  lemma NoneDrawn(c: Chart, path: seq<string>, subs: seq<string>)
    ensures DrawsChildren(c, path, subs, 0, [])
  {
  }

  /** Only the digipeater lines of the tree carry names. */
  lemma DrawnOfMap(c: Chart, digisOnly: bool)
    requires Rooted(c) && Chain(c, [c.bbs])
    ensures var subs := DigiChildren(c, c.bbs);
      Drawn(MapLines(c, digisOnly))
      == Drawn(ChildLines(c, "", c.direct != [], digisOnly, [c.bbs], subs, |subs|))
  {
    hide DigiChildren, Chain, Rooted, Drawn;
    var subs, some := DigiChildren(c, c.bbs), c.direct != [];
    var lines := ChildLines(c, "", some, digisOnly, [c.bbs], subs, |subs|);
    DrawnNothing();
    DrawnOne(Title(c.bbs));
    if subs == [] && !some {
      DrawnOne(NothingYet);
      DrawnConcat([Title(c.bbs)], [NothingYet]);
      assert [Title(c.bbs)] + [NothingYet] == [Title(c.bbs), NothingYet];
      assert lines == [];
    } else {
      DrawnOfDirect(c, digisOnly);
      var tail := DirectLines(c, digisOnly);
      hide ChildLines, DirectLines;
      DrawnConcat([Title(c.bbs)], lines);
      DrawnConcat([Title(c.bbs)] + lines, tail);
      assert [] + Drawn(lines) + [] == Drawn(lines);
    }
  }

  lemma DrawnOfDirect(c: Chart, digisOnly: bool)
    ensures Drawn(DirectLines(c, digisOnly)) == []
  {
    hide Drawn;
    DrawnNothing();
    DrawnOne(DirectCount(Conn(true), |c.direct|));
    DrawnOne(DirectList(Conn(true)));
    DrawnOne(Calls(Indent(true), c.direct));
    DrawnConcat([DirectList(Conn(true))], [Calls(Indent(true), c.direct)]);
    assert [DirectList(Conn(true))] + [Calls(Indent(true), c.direct)]
        == [DirectList(Conn(true)), Calls(Indent(true), c.direct)];
  }

  /** Whatever was heard, even when best parents form cycles, the drawing ends, and it shows
      exactly the digipeaters whose chain of best parents leads to the BBS, each once. */
  lemma DrawsWhatReachesUs(c: Chart, digisOnly: bool)
    requires Rooted(c)
    ensures var names := Drawn(MapLines(c, digisOnly));
      NoDoubles(names) && forall n :: n in names <==> n in c.digis && Reaches(c, n)
  {
    hide ChildLines, DigiChildren, Drawn, MapLines, Rooted, NoDoubles, Under;
    var subs := DigiChildren(c, c.bbs);
    assert Chain(c, [c.bbs]);
    DrawnOfMap(c, digisOnly);
    ChildrenDraw(c, "", c.direct != [], digisOnly, [c.bbs], subs, |subs|);
    var names := Drawn(MapLines(c, digisOnly));
    assert DrawsChildren(c, [c.bbs], subs, |subs|, names);
    BbsIsNoDigi(c);
    forall n ensures n in names <==> n in c.digis && Reaches(c, n) {
      BelowSplits(c, [c.bbs], n);
      UnderTheRoot(c, n);
    }
  }

  lemma BbsIsNoDigi(c: Chart)
    requires Rooted(c)
    ensures c.bbs !in c.digis
  {
  }

  lemma DrawnNothing()
    ensures Drawn([]) == []
  {
  }

  lemma UnderTheRoot(c: Chart, n: string)
    ensures Under(c, [c.bbs], n) <==> n in c.digis && Reaches(c, n)
  {
    if n in c.digis && Reaches(c, n) {
      var path :| Chain(c, path) && path[|path| - 1] == n;
      assert Extends(path, [c.bbs]);
    }
  }

  /** From what was heard to what is shown: the digipeaters on the map are exactly those that some
      confirmed hop leads to and whose chain of best parents reaches the BBS, each once. */
  lemma MapOfWhatWasHeard(c: Chart, rows: seq<Relayed>, bbs: string, digisOnly: bool)
    requires Charts(c, rows, bbs)
    ensures Rooted(c)
    ensures var names := Drawn(MapLines(c, digisOnly));
      && NoDoubles(names)
      && forall n :: n in names <==>
           n != bbs && Relays(rows, bbs, n) && Reaches(c, n)
  {
    ChartsAreRooted(c, rows, bbs);
    DrawsWhatReachesUs(c, digisOnly);
    var names := Drawn(MapLines(c, digisOnly));
    hide Drawn, MapLines, Rooted, Digis, EdgesOf, TallyOf;
    forall n ensures n in names <==> n != bbs && Relays(rows, bbs, n) && Reaches(c, n) {
      DigisAreRelays(rows, bbs, n);
    }
  }

  ghost predicate Relays(rows: seq<Relayed>, bbs: string, n: string)
  {
    exists e :: e in EdgesOf(rows, bbs) && e.to == n
  }
}

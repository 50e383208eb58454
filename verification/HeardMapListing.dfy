/** The stations on the map: how many hang from each digipeater, and that each is listed once, under
    the digipeater that is its best parent. */
module HeardMapListing {
  import opened Prelude
  import opened HeardPaths
  import opened HeardMap
  import opened HeardMapDrawing

  // ---------- Whose list it is ----------

  /** The last digipeater drawn with a lead of this width. */
  function LastAt(lines: seq<Line>, width: int): Option<string>
  {
    if lines == [] then None
    else match lines[|lines| - 1]
      case Digi(lead, name, _) => if |lead| == width then Some(name) else LastAt(lines[..|lines| - 1], width)
      case _ => LastAt(lines[..|lines| - 1], width)
  }

  /** A list of callsigns, and the digipeater one step to the left above it. */
  datatype List = List(owner: Option<string>, calls: seq<string>)

  /** The lists among `lines`, which stand below the lines `above`. */
  function Lists(above: seq<Line>, lines: seq<Line>): seq<List>
    decreases |lines|
  {
    if lines == [] then []
    else
      (match lines[0] case Calls(lead, calls) => [List(LastAt(above, |lead| - 3), calls)] case _ => [])
      + Lists(above + [lines[0]], lines[1..])
  }

  lemma {:induction false} ListsConcat(above: seq<Line>, a: seq<Line>, b: seq<Line>)
    ensures Lists(above, a + b) == Lists(above, a) + Lists(above + a, b)
    decreases |a|
  {
    hide LastAt;
    if a == [] {
      assert a + b == b && above + a == above;
    } else {
      assert (a + b)[1..] == a[1..] + b && (above + [a[0]]) + a[1..] == above + a;
      ListsConcat(above + [a[0]], a[1..], b);
    }
  }

  lemma ListsOne(above: seq<Line>, l: Line)
    ensures Lists(above, [l]) == match l case Calls(lead, calls) => [List(LastAt(above, |lead| - 3), calls)] case _ => []
  {
    assert Lists(above + [l], []) == [];
  }

  lemma LastAtOne(above: seq<Line>, l: Line, width: int)
    ensures LastAt(above + [l], width) ==
      match l case Digi(lead, name, _) => (if |lead| == width then Some(name) else LastAt(above, width)) case _ => LastAt(above, width)
  {
    assert (above + [l])[..|above|] == above;
  }

  /** All digipeaters among the lines are drawn wider than that. */
  predicate WiderThan(lines: seq<Line>, width: int)
  {
    forall i :: 0 <= i < |lines| && lines[i].Digi? ==> |lines[i].lead| > width
  }

  lemma {:induction false} LastAtBefore(above: seq<Line>, lines: seq<Line>, width: int)
    requires WiderThan(lines, width)
    ensures LastAt(above + lines, width) == LastAt(above, width)
    decreases |lines|
  {
    if lines == [] {
      assert above + lines == above;
    } else {
      var n := |lines| - 1;
      LastAtBefore(above, lines[..n], width);
      LastAtOne(above + lines[..n], lines[n], width);
      assert above + lines == (above + lines[..n]) + [lines[n]];
    }
  }

  // ---------- What each list must be ----------

  /** One list for each of `names` that has stations, with exactly those, and no other list. */
  ghost predicate ListsFor(c: Chart, names: seq<string>, lists: seq<List>)
  {
    && (forall i :: 0 <= i < |lists| ==>
          lists[i].owner.Some? && lists[i].owner.value in names
          && lists[i].calls == Listed(c.stations, lists[i].owner.value) && lists[i].calls != [])
    && (forall n :: n in names && Listed(c.stations, n) != [] ==> List(Some(n), Listed(c.stations, n)) in lists)
    && (forall i, j :: 0 <= i < j < |lists| ==> lists[i].owner != lists[j].owner)
  }

  lemma ListsForConcat(c: Chart, a: seq<string>, b: seq<string>, la: seq<List>, lb: seq<List>)
    requires ListsFor(c, a, la) && ListsFor(c, b, lb) && forall n :: n in a ==> n !in b
    ensures ListsFor(c, a + b, la + lb)
  {
    hide Listed;
    var l := la + lb;
    forall i | 0 <= i < |l|
      ensures l[i].owner.Some? && l[i].owner.value in a + b
              && l[i].calls == Listed(c.stations, l[i].owner.value) && l[i].calls != []
    {
      assert l[i] == if i < |la| then la[i] else lb[i - |la|];
    }
    forall i, j | 0 <= i < j < |l| ensures l[i].owner != l[j].owner {
      assert l[i] == (if i < |la| then la[i] else lb[i - |la|]) && l[j] == if j < |la| then la[j] else lb[j - |la|];
    }
  }

  lemma {:induction false} NodeWidth(c: Chart, pfx: string, isLast: bool, digisOnly: bool, path: seq<string>, node: string)
    requires Rooted(c) && Chain(c, path) && path[|path| - 1] == node && node in c.digis
    ensures WiderThan(NodeLines(c, pfx, isLast, digisOnly, path, node), |pfx| + 2)
    decreases |c.digis| + 1 - |path|, 1, 0
  {
    hide Rooted, Chain, DigiChildren;
    ChainFits(c, path);
    var subs := DigiChildren(c, node);
    ChildWidth(c, pfx + Indent(isLast), StationsLast(c, node, digisOnly), digisOnly, path, subs, |subs|);
  }

  lemma {:induction false} ChildWidth(c: Chart, pfx: string, more: bool, digisOnly: bool, path: seq<string>, subs: seq<string>, k: nat)
    requires Rooted(c) && Chain(c, path) && subs == DigiChildren(c, path[|path| - 1]) && k <= |subs|
    requires |path| <= |c.digis| + 1
    ensures WiderThan(ChildLines(c, pfx, more, digisOnly, path, subs, k), |pfx| + 2)
    decreases |c.digis| + 1 - |path|, 0, k
  {
    hide Rooted, Chain, DigiChildren;
    if k > 0 {
      ChildExtends(c, path, subs[k - 1]);
      ChildWidth(c, pfx, more, digisOnly, path, subs, k - 1);
      NodeWidth(c, pfx, k == |subs| && !more, digisOnly, path + [subs[k - 1]], subs[k - 1]);
    }
  }

  /** Below a digipeater: its own list at its end, and those of what hangs from it. */
  lemma {:induction false} NodeLists(c: Chart, above: seq<Line>, pfx: string, isLast: bool, path: seq<string>, node: string)
    requires Rooted(c) && path != [] && Chain(c, path) && path[|path| - 1] == node && node in c.digis
    ensures var lines := NodeLines(c, pfx, isLast, false, path, node); ListsFor(c, Drawn(lines), Lists(above, lines))
    decreases |c.digis| + 1 - |path|, 1, 0
  {
    hide Rooted, Chain, DigiChildren, ChildLines, Drawn, Lists, LastAt, ListsFor, NoDoubles, Under;
    ChainFits(c, path);
    var subs, some := DigiChildren(c, node), StationsLast(c, node, false);
    var inner := pfx + Indent(isLast);
    var own := Digi(pfx + Conn(isLast), node, |Listed(c.stations, node)|);
    var below := ChildLines(c, inner, some, false, path, subs, |subs|);
    ChildWidth(c, inner, some, false, path, subs, |subs|);
    ChildLists(c, above + [own], inner, some, path, subs, |subs|);
    NodeNames(c, pfx, isLast, path, node);
    NodeParts(c, above, own, below, inner, node);
  }

  /** The node's name is drawn once, and before its children. */
  lemma NodeNames(c: Chart, pfx: string, isLast: bool, path: seq<string>, node: string)
    requires Rooted(c) && path != [] && Chain(c, path) && path[|path| - 1] == node && node in c.digis
    requires |path| <= |c.digis| + 1
    ensures var subs := DigiChildren(c, node);
      var below := Drawn(ChildLines(c, pfx + Indent(isLast), StationsLast(c, node, false), false, path, subs, |subs|));
      Drawn(NodeLines(c, pfx, isLast, false, path, node)) == [node] + below && node !in below
  {
    hide Rooted, Chain, DigiChildren, ChildLines, Drawn, Under, DrawsChildren;
    var subs, some := DigiChildren(c, node), StationsLast(c, node, false);
    var inner := pfx + Indent(isLast);
    var below := ChildLines(c, inner, some, false, path, subs, |subs|);
    ChildrenDraw(c, inner, some, false, path, subs, |subs|);
    var head := [Digi(pfx + Conn(isLast), node, |Listed(c.stations, node)|)];
    var tail := if some then [Calls(inner + Conn(true), Listed(c.stations, node))] else [];
    DrawnConcat(head + below, tail);
    DrawnConcat(head, below);
    DrawnOne(head[0]);
    DrawnTail(tail);
    assert Drawn(head + below + tail) == [node] + Drawn(below);
    NotAmongChildren(c, path, node, Drawn(below));
  }

  lemma NotAmongChildren(c: Chart, path: seq<string>, node: string, below: seq<string>)
    requires Rooted(c) && Chain(c, path) && path[|path| - 1] == node
    requires var subs := DigiChildren(c, node); DrawsChildren(c, path, subs, |subs|, below)
    ensures node !in below
  {
    hide Rooted, Chain, DigiChildren, Under;
    var subs := DigiChildren(c, node);
    if node in below {
      var i :| 0 <= i < |subs| && Under(c, path + [subs[i]], node);
      NotBelowItself(c, path, node, subs[i]);
    }
  }

  lemma NodeParts(c: Chart, above: seq<Line>, own: Line, below: seq<Line>, inner: string, node: string)
    requires own.Digi? && own.name == node && |own.lead| == |inner|
    requires WiderThan(below, |inner| + 2) && ListsFor(c, Drawn(below), Lists(above + [own], below)) && node !in Drawn(below)
    ensures var some := Listed(c.stations, node) != [];
      var tail := if some then [Calls(inner + Conn(true), Listed(c.stations, node))] else [];
      ListsFor(c, [node] + Drawn(below), Lists(above, [own] + below + tail))
  {
    hide Drawn, Lists, LastAt, ListsFor, Listed;
    var some := Listed(c.stations, node) != [];
    var tail := if some then [Calls(inner + Conn(true), Listed(c.stations, node))] else [];
    ListsConcat(above, [own] + below, tail);
    ListsConcat(above, [own], below);
    ListsOne(above, own);
    var at := above + ([own] + below);
    assert at == (above + [own]) + below;
    var mine := Lists(at, tail);
    if some {
      ListsOne(at, tail[0]);
      LastAtBefore(above + [own], below, |inner|);
      LastAtOne(above, own, |inner|);
      assert mine == [List(Some(node), Listed(c.stations, node))];
    } else {
      NoLists(at);
    }
    OwnList(c, node, mine);
    assert [] + Lists(above + [own], below) == Lists(above + [own], below);
    ListsForSwapped(c, node, Drawn(below), mine, Lists(above + [own], below));
  }

  lemma NoLists(above: seq<Line>)
    ensures Lists(above, []) == []
  {
  }

  lemma OwnList(c: Chart, node: string, mine: seq<List>)
    requires mine == if Listed(c.stations, node) != [] then [List(Some(node), Listed(c.stations, node))] else []
    ensures ListsFor(c, [node], mine)
  {
    hide Listed;
  }

  lemma ListsForSwapped(c: Chart, node: string, names: seq<string>, mine: seq<List>, others: seq<List>)
    requires ListsFor(c, [node], mine) && ListsFor(c, names, others) && node !in names
    ensures ListsFor(c, [node] + names, others + mine)
  {
    ListsForConcat(c, names, [node], others, mine);
    hide Listed;
    assert forall n :: n in [node] + names <==> n in names + [node];
  }

  lemma {:induction false} ChildLists(c: Chart, above: seq<Line>, pfx: string, more: bool, path: seq<string>, subs: seq<string>, k: nat)
    requires Rooted(c) && path != [] && Chain(c, path) && subs == DigiChildren(c, path[|path| - 1]) && k <= |subs|
    requires |path| <= |c.digis| + 1
    ensures var lines := ChildLines(c, pfx, more, false, path, subs, k); ListsFor(c, Drawn(lines), Lists(above, lines))
    decreases |c.digis| + 1 - |path|, 0, k
  {
    hide Rooted, Chain, DigiChildren, NodeLines, Drawn, Lists, ListsFor, Under, DrawsChildren, DrawsBelow;
    if k == 0 {
      NoneListed(c, above);
    } else {
      var child := subs[k - 1];
      var last := k == |subs| && !more;
      ChildExtends(c, path, child);
      ChildrenDistinct(c, path[|path| - 1]);
      var front := ChildLines(c, pfx, more, false, path, subs, k - 1);
      var lines := NodeLines(c, pfx, last, false, path + [child], child);
      ChildLists(c, above, pfx, more, path, subs, k - 1);
      NodeLists(c, above + front, pfx, last, path + [child], child);
      ChildrenDraw(c, pfx, more, false, path, subs, k - 1);
      NodeDraws(c, pfx, last, false, path + [child], child);
      SiblingsApart(c, path, subs, k - 1, Drawn(front), Drawn(lines));
      DrawnConcat(front, lines);
      ListsConcat(above, front, lines);
      ListsForConcat(c, Drawn(front), Drawn(lines), Lists(above, front), Lists(above + front, lines));
    }
  }

  lemma NoneListed(c: Chart, above: seq<Line>)
    ensures ListsFor(c, Drawn([]), Lists(above, []))
  {
  }

  lemma SiblingsApart(c: Chart, path: seq<string>, subs: seq<string>, k: nat, front: seq<string>, last: seq<string>)
    requires Rooted(c) && k < |subs| && NoDoubles(subs)
    requires DrawsChildren(c, path, subs, k, front) && DrawsBelow(c, path + [subs[k]], last)
    ensures forall x :: x in front ==> x !in last
  {
    hide Rooted, Under;
    forall x | x in front ensures x !in last {
      if x in last {
        var i :| 0 <= i < k && Under(c, path + [subs[i]], x);
        Disjoint(c, path, subs[i], subs[k], x);
      }
    }
  }

  // ---------- The whole map ----------

  /** Every digipeater's line gives the number of its stations. */
  ghost predicate CountsRight(c: Chart, lines: seq<Line>)
  {
    forall i :: 0 <= i < |lines| && lines[i].Digi? ==> lines[i].count == |Listed(c.stations, lines[i].name)|
  }

  lemma {:induction false} NodeCounts(c: Chart, pfx: string, isLast: bool, digisOnly: bool, path: seq<string>, node: string)
    requires Rooted(c) && Chain(c, path) && path[|path| - 1] == node && node in c.digis
    ensures CountsRight(c, NodeLines(c, pfx, isLast, digisOnly, path, node))
    decreases |c.digis| + 1 - |path|, 1, 0
  {
    hide Rooted, Chain, DigiChildren;
    ChainFits(c, path);
    var subs := DigiChildren(c, node);
    ChildCounts(c, pfx + Indent(isLast), StationsLast(c, node, digisOnly), digisOnly, path, subs, |subs|);
  }

  lemma {:induction false} ChildCounts(c: Chart, pfx: string, more: bool, digisOnly: bool, path: seq<string>, subs: seq<string>, k: nat)
    requires Rooted(c) && Chain(c, path) && subs == DigiChildren(c, path[|path| - 1]) && k <= |subs|
    requires |path| <= |c.digis| + 1
    ensures CountsRight(c, ChildLines(c, pfx, more, digisOnly, path, subs, k))
    decreases |c.digis| + 1 - |path|, 0, k
  {
    hide Rooted, Chain, DigiChildren;
    if k > 0 {
      ChildExtends(c, path, subs[k - 1]);
      ChildCounts(c, pfx, more, digisOnly, path, subs, k - 1);
      NodeCounts(c, pfx, k == |subs| && !more, digisOnly, path + [subs[k - 1]], subs[k - 1]);
    }
  }

  /** Each digipeater on the map is shown with the number of its stations. */
  lemma MapCounts(c: Chart, digisOnly: bool)
    requires Rooted(c)
    ensures CountsRight(c, MapLines(c, digisOnly))
  {
    assert Chain(c, [c.bbs]);
    var subs := DigiChildren(c, c.bbs);
    ChildCounts(c, "", c.direct != [], digisOnly, [c.bbs], subs, |subs|);
    hide Rooted, Chain, DigiChildren, ChildLines, Listed;
  }

  /** Drawn in full, the map lists under each digipeater that it shows exactly its stations, once, and
      at its end those heard directly. */
  lemma MapLists(c: Chart)
    requires Rooted(c)
    ensures var lines := MapLines(c, false);
      exists lists :: ListsFor(c, Drawn(lines), lists)
                      && Lists([], lines) == lists + if c.direct != [] then [List(None, c.direct)] else []
  {
    assert Chain(c, [c.bbs]);
    hide DigiChildren, Chain, Rooted, Drawn, Lists, LastAt, ListsFor, MapLines, ChildLines;
    var subs, some := DigiChildren(c, c.bbs), c.direct != [];
    var below := ChildLines(c, "", some, false, [c.bbs], subs, |subs|);
    var lines := MapLines(c, false);
    DrawnOfMap(c, false);
    ChildLists(c, [Title(c.bbs)], "", some, [c.bbs], subs, |subs|);
    MapParts(c, below);
  }

  lemma MapParts(c: Chart, below: seq<Line>)
    requires Rooted(c) && Chain(c, [c.bbs])
    requires var subs := DigiChildren(c, c.bbs);
      below == ChildLines(c, "", c.direct != [], false, [c.bbs], subs, |subs|)
    ensures Lists([], MapLines(c, false))
            == Lists([Title(c.bbs)], below) + if c.direct != [] then [List(None, c.direct)] else []
  {
    hide DigiChildren, Chain, Lists, LastAt, ListsFor, DirectLines;
    var subs, some := DigiChildren(c, c.bbs), c.direct != [];
    ListsOne([], Title(c.bbs));
    if subs == [] && !some {
      ListsConcat([], [Title(c.bbs)], [NothingYet]);
      ListsOne([Title(c.bbs)], NothingYet);
      NoLists([Title(c.bbs)]);
      assert [Title(c.bbs)] + [NothingYet] == [Title(c.bbs), NothingYet];
      assert [] + [Title(c.bbs)] == [Title(c.bbs)];
    } else {
      ChildWidth(c, "", some, false, [c.bbs], subs, |subs|);
      hide ChildLines;
      ListsConcat([], [Title(c.bbs)] + below, DirectLines(c, false));
      ListsConcat([], [Title(c.bbs)], below);
      assert [] + [Title(c.bbs)] == [Title(c.bbs)] && [] + ([Title(c.bbs)] + below) == [Title(c.bbs)] + below;
      DirectListed(c, [Title(c.bbs)] + below);
      LastAtBefore([Title(c.bbs)], below, 0);
      TitleIsNoDigi(c.bbs);
      assert [] + Lists([Title(c.bbs)], below) == Lists([Title(c.bbs)], below);
    }
  }

  lemma TitleIsNoDigi(bbs: string)
    ensures LastAt([Title(bbs)], 0) == None
  {
    assert [Title(bbs)][..0] == [];
  }

  lemma DirectListed(c: Chart, above: seq<Line>)
    ensures Lists(above, DirectLines(c, false)) == if c.direct != [] then [List(LastAt(above, 0), c.direct)] else []
  {
    hide Lists, LastAt;
    if c.direct == [] {
      NoLists(above);
    } else {
      ListsConcat(above, [DirectList(Conn(true))], [Calls(Indent(true), c.direct)]);
      ListsOne(above, DirectList(Conn(true)));
      ListsOne(above + [DirectList(Conn(true))], Calls(Indent(true), c.direct));
      LastAtOne(above, DirectList(Conn(true)), 0);
      assert [DirectList(Conn(true))] + [Calls(Indent(true), c.direct)]
          == [DirectList(Conn(true)), Calls(Indent(true), c.direct)];
    }
  }

  /** From what was heard to what is listed: a station that is no digipeater, and whose best parent is a
      digipeater on the map, stands once in that one's list and in no other's; a list under a digipeater
      holds nobody else. */
  lemma StationListedOnce(c: Chart, rows: seq<Relayed>, bbs: string, n: string, s: string)
    requires Rooted(c) && Charts(c, rows, bbs) && n in Drawn(MapLines(c, false))
    ensures s in Listed(c.stations, n) <==> s in Stations(rows) && s !in c.digis && s in c.parent && c.parent[s] == n
    ensures NoDoubles(Listed(c.stations, n))
    ensures forall k :: s in Listed(c.stations, n) && s in Listed(c.stations, k) ==> k == n
    ensures Listed(c.stations, n) != [] ==> List(Some(n), Listed(c.stations, n)) in Lists([], MapLines(c, false))
  {
    ListIsShown(c, n);
    GroupedStations(c, rows, bbs, n, s);
    hide MapLines, Drawn, Lists, Rooted, Charts, Listed, NoDoubles, Stations;
    forall k | s in Listed(c.stations, n) && s in Listed(c.stations, k) ensures k == n {
      GroupedStations(c, rows, bbs, k, s);
    }
  }

  lemma ListIsShown(c: Chart, n: string)
    requires Rooted(c) && n in Drawn(MapLines(c, false))
    ensures Listed(c.stations, n) != [] ==> List(Some(n), Listed(c.stations, n)) in Lists([], MapLines(c, false))
  {
    hide MapLines, Drawn, Lists, Rooted, Listed;
    MapLists(c);
    var lines := MapLines(c, false);
    var lists :| ListsFor(c, Drawn(lines), lists)
                 && Lists([], lines) == lists + if c.direct != [] then [List(None, c.direct)] else [];
  }

  lemma GroupedStations(c: Chart, rows: seq<Relayed>, bbs: string, n: string, s: string)
    requires Charts(c, rows, bbs)
    ensures s in Listed(c.stations, n) <==> s in Stations(rows) && s !in c.digis && s in c.parent && c.parent[s] == n
    ensures NoDoubles(Listed(c.stations, n))
  {
    ChartGroups(c, rows, bbs);
    GroupAt(c.stations, Stations(rows) - c.digis, c.parent, c.digis, n, s);
  }

  lemma ChartGroups(c: Chart, rows: seq<Relayed>, bbs: string)
    requires Charts(c, rows, bbs)
    ensures Groups(c.stations, Stations(rows) - c.digis, c.parent, c.digis)
    ensures Groups(c.children, c.parent.Keys, c.parent, c.digis)
  {
    hide TallyOf, EdgesOf, Stations, Parents, Digis, Groups;
  }

  lemma GroupAt(lists: map<string, seq<string>>, members: set<string>, parent: map<string, string>, digis: set<string>,
                n: string, s: string)
    requires Groups(lists, members, parent, digis)
    ensures s in Listed(lists, n) <==> s in members && s in parent && parent[s] == n
    ensures InOrder(digis, Listed(lists, n)) && NoDoubles(Listed(lists, n))
  {
    hide InOrder, Listed;
    assert InOrder(digis, Listed(lists, n));
    OrderedNoDoubles(digis, Listed(lists, n));
  }

  /** Who hangs from a node is listed digipeaters first, and by name among each. */
  lemma ListedByName(c: Chart, rows: seq<Relayed>, bbs: string, n: string, i: nat, j: nat)
    requires Charts(c, rows, bbs) && i < j
    ensures j < |Listed(c.children, n)| ==>
      var a, b := Listed(c.children, n)[i], Listed(c.children, n)[j];
      (b in c.digis ==> a in c.digis) && ((a in c.digis <==> b in c.digis) ==> a != b && Leq(a, b))
    ensures j < |Listed(c.stations, n)| ==>
      var a, b := Listed(c.stations, n)[i], Listed(c.stations, n)[j]; a != b && Leq(a, b)
  {
    ChartGroups(c, rows, bbs);
    hide Charts, Listed, Stations;
    if j < |Listed(c.children, n)| {
      GroupAt(c.children, c.parent.Keys, c.parent, c.digis, n, Listed(c.children, n)[i]);
    }
    if j < |Listed(c.stations, n)| {
      var a, b := Listed(c.stations, n)[i], Listed(c.stations, n)[j];
      GroupAt(c.stations, Stations(rows) - c.digis, c.parent, c.digis, n, a);
      GroupAt(c.stations, Stations(rows) - c.digis, c.parent, c.digis, n, b);
      assert Before(c.digis, a, b);
    }
  }

  /** The map opens with the BBS, and who was heard without a digipeater closes it: as a number in the short
      form, by name in the full one. */
  lemma DirectAtTheEnd(c: Chart, digisOnly: bool)
    requires Rooted(c)
    ensures MapLines(c, digisOnly) != [] && MapLines(c, digisOnly)[0] == Title(c.bbs)
    ensures var lines := MapLines(c, digisOnly); var n := |lines|;
      c.direct != [] ==>
        if digisOnly then lines[n - 1] == DirectCount("\\--", |c.direct|)
        else n >= 2 && lines[n - 2] == DirectList("\\--") && lines[n - 1] == Calls("   ", c.direct)
  {
    hide DigiChildren, ChildLines, Rooted;
  }

  /** With no digipeater to draw and nobody heard directly, the map says so. */
  lemma EmptyMap(c: Chart, digisOnly: bool)
    requires Rooted(c) && c.direct == [] && DigiChildren(c, c.bbs) == []
    ensures MapLines(c, digisOnly) == [Title(c.bbs), NothingYet]
  {
  }

  /** Without the stations the map holds no list at all. */
  lemma {:induction false} NoListsInDigisOnly(c: Chart, i: nat)
    requires Rooted(c) && i < |MapLines(c, true)|
    ensures !MapLines(c, true)[i].Calls? && !MapLines(c, true)[i].DirectList?
  {
    assert Chain(c, [c.bbs]);
    var subs := DigiChildren(c, c.bbs);
    ChildNoLists(c, "", c.direct != [], [c.bbs], subs, |subs|);
    hide Rooted, Chain, DigiChildren, ChildLines;
  }

  predicate ListFree(lines: seq<Line>)
  {
    forall i :: 0 <= i < |lines| ==> lines[i].Digi?
  }

  lemma {:induction false} NodeNoLists(c: Chart, pfx: string, isLast: bool, path: seq<string>, node: string)
    requires Rooted(c) && Chain(c, path) && path[|path| - 1] == node && node in c.digis
    ensures ListFree(NodeLines(c, pfx, isLast, true, path, node))
    decreases |c.digis| + 1 - |path|, 1, 0
  {
    hide Rooted, Chain, DigiChildren;
    ChainFits(c, path);
    var subs := DigiChildren(c, node);
    ChildNoLists(c, pfx + Indent(isLast), StationsLast(c, node, true), path, subs, |subs|);
  }

  lemma {:induction false} ChildNoLists(c: Chart, pfx: string, more: bool, path: seq<string>, subs: seq<string>, k: nat)
    requires Rooted(c) && Chain(c, path) && subs == DigiChildren(c, path[|path| - 1]) && k <= |subs|
    requires |path| <= |c.digis| + 1
    ensures ListFree(ChildLines(c, pfx, more, true, path, subs, k))
    decreases |c.digis| + 1 - |path|, 0, k
  {
    hide Rooted, Chain, DigiChildren;
    if k > 0 {
      ChildExtends(c, path, subs[k - 1]);
      ChildNoLists(c, pfx, more, path, subs, k - 1);
      NodeNoLists(c, pfx, k == |subs| && !more, path + [subs[k - 1]], subs[k - 1]);
    }
  }

  // ---------- The branches ----------

  /** A line of the tree, its lead beginning so. */
  predicate LeadFrom(l: Line, start: string)
  {
    match l
    case Digi(lead, _, _) => start <= lead
    case Calls(lead, _) => start <= lead
    case _ => false
  }

  /** A digipeater's own line ends its lead in a branch, the last of its siblings in a corner; what
      hangs from it stands three columns to the right, past a bar while siblings follow. */
  lemma {:induction false} BranchesDrawn(c: Chart, pfx: string, isLast: bool, digisOnly: bool, path: seq<string>, node: string, i: nat)
    requires Rooted(c) && Chain(c, path) && path[|path| - 1] == node && node in c.digis
    requires i < |NodeLines(c, pfx, isLast, digisOnly, path, node)|
    ensures var l := NodeLines(c, pfx, isLast, digisOnly, path, node)[i];
      if i == 0 then l.Digi? && l.name == node && l.lead == pfx + (if isLast then "\\--" else "+--")
      else LeadFrom(l, pfx + if isLast then "   " else "|  ")
    decreases |c.digis| + 1 - |path|, 1, 0
  {
    hide Rooted, Chain, DigiChildren, ChildLines;
    ChainFits(c, path);
    var subs, inner := DigiChildren(c, node), pfx + Indent(isLast);
    var below := ChildLines(c, inner, StationsLast(c, node, digisOnly), digisOnly, path, subs, |subs|);
    if 0 < i <= |below| {
      ChildBranches(c, inner, StationsLast(c, node, digisOnly), digisOnly, path, subs, |subs|, i - 1);
    }
  }

  lemma {:induction false} ChildBranches(c: Chart, pfx: string, more: bool, digisOnly: bool, path: seq<string>, subs: seq<string>,
                                         k: nat, i: nat)
    requires Rooted(c) && Chain(c, path) && subs == DigiChildren(c, path[|path| - 1]) && k <= |subs|
    requires |path| <= |c.digis| + 1 && i < |ChildLines(c, pfx, more, digisOnly, path, subs, k)|
    ensures LeadFrom(ChildLines(c, pfx, more, digisOnly, path, subs, k)[i], pfx)
    decreases |c.digis| + 1 - |path|, 0, k
  {
    hide Rooted, Chain, DigiChildren, NodeLines;
    if k > 0 {
      ChildExtends(c, path, subs[k - 1]);
      var n := |ChildLines(c, pfx, more, digisOnly, path, subs, k - 1)|;
      if i < n {
        ChildBranches(c, pfx, more, digisOnly, path, subs, k - 1, i);
      } else {
        BranchesDrawn(c, pfx, k == |subs| && !more, digisOnly, path + [subs[k - 1]], subs[k - 1], i - n);
      }
    }
  }
}

/** Digipeater paths as heard: which hops are confirmed, and how the copies of one beacon are
    merged. */
module HeardPaths {
  import opened Prelude
  import opened WireCalls

  datatype Edge = Edge(from: string, to: string)

  // ---------- Paths as text ----------

  function FirstComma(s: string): (d: nat)
    ensures d <= |s|
    ensures d < |s| ==> s[d] == ','
    ensures forall i :: 0 <= i < d ==> s[i] != ','
  {
    if s == [] || s[0] == ',' then 0 else 1 + FirstComma(s[1..])
  }

  /** The stripped, non-empty parts between commas. */
  function Hops(via: string): seq<string>
    decreases |via|
  {
    var d := FirstComma(via);
    var hop := Strip(via[..d]);
    (if hop != [] then [hop] else []) + if d < |via| then Hops(via[d + 1..]) else []
  }

  predicate Starred(h: string) { h != [] && h[|h| - 1] == '*' }

  /** rstrip("*") */
  function Unstarred(h: string): (u: string)
    ensures u <= h && !Starred(u)
  {
    if Starred(h) then Unstarred(h[..|h| - 1]) else h
  }

  /** The number of hops up to and including the last starred one. */
  function ConfirmedLen(hops: seq<string>): (n: nat)
    ensures n <= |hops|
  {
    if hops == [] then 0
    else if Starred(hops[|hops| - 1]) then |hops|
    else ConfirmedLen(hops[..|hops| - 1])
  }

  function Names(hops: seq<string>): (ns: seq<string>)
    ensures |ns| == |hops|
  {
    seq(|hops|, i requires 0 <= i < |hops| => Unstarred(hops[i]))
  }

  function Links(chain: seq<string>): (es: seq<Edge>)
    requires chain != []
    ensures |es| == |chain| - 1
  {
    seq(|chain| - 1, i requires 0 <= i < |chain| - 1 => Edge(chain[i], chain[i + 1]))
  }

  function ChainEdges(src: string, names: seq<string>, bbs: string): seq<Edge>
  {
    Links([src] + names + [bbs])
  }

  /** The hops a path proves: none if no digipeater has marked it. */
  function ConfirmedEdges(src: string, via: string, bbs: string): seq<Edge>
  {
    if via == [] then [Edge(src, bbs)]
    else
      var hops := Hops(via);
      var n := ConfirmedLen(hops);
      if n == 0 then [] else ChainEdges(src, Names(hops[..n]), bbs)
  }

  // ---------- Merging ----------

  function MergedHop(s: string, n: string): string
  {
    Unstarred(s) + if Starred(s) || Starred(n) then "*" else ""
  }

  function MergedHops(s: seq<string>, n: seq<string>): (m: seq<string>)
    requires |s| == |n|
    ensures |m| == |s|
  {
    seq(|s|, i requires 0 <= i < |s| => MergedHop(s[i], n[i]))
  }

  function Joined(parts: seq<string>): string
  {
    if parts == [] then []
    else if |parts| == 1 then parts[0]
    else parts[0] + "," + Joined(parts[1..])
  }

  function MergeVia(stored: string, incoming: string): string
  {
    if stored == [] then incoming
    else if incoming == [] then stored
    else
      var s, n := Hops(stored), Hops(incoming);
      if |s| != |n| || Names(s) != Names(n) then incoming
      else Joined(MergedHops(s, n))
  }

  /** A hop as the parser yields it: no comma, not empty, no space at either end. */
  predicate IsHop(h: string)
  {
    h != [] && !IsSpace(h[0]) && !IsSpace(h[|h| - 1]) && ',' !in h
  }

  lemma {:induction false} LStripIs(s: string)
    ensures |LStrip(s)| <= |s| && LStrip(s) == s[|s| - |LStrip(s)|..]
    ensures LStrip(s) != [] ==> !IsSpace(LStrip(s)[0])
  {
    if s != [] && IsSpace(s[0]) {
      LStripIs(s[1..]);
    }
  }

  lemma StripIs(s: string)
    ensures Strip(s) != [] ==> !IsSpace(Strip(s)[0]) && !IsSpace(Strip(s)[|Strip(s)| - 1])
    ensures forall c :: c in Strip(s) ==> c in s
  {
    LStripIs(s);
    RStripIs(LStrip(s));
  }

  lemma {:induction false} HopsAreHops(via: string)
    ensures forall i :: 0 <= i < |Hops(via)| ==> IsHop(Hops(via)[i])
    decreases |via|
  {
    var d := FirstComma(via);
    StripIs(via[..d]);
    assert ',' !in via[..d];
    if d < |via| {
      HopsAreHops(via[d + 1..]);
    }
  }

  lemma HopStays(h: string)
    requires IsHop(h)
    ensures Strip(h) == h
  {
  }

  lemma {:induction false} CommaAfter(h: string, rest: string)
    requires ',' !in h
    ensures FirstComma(h + "," + rest) == |h| && FirstComma(h) == |h|
  {
    if h != [] {
      CommaAfter(h[1..], rest);
      assert (h + "," + rest)[1..] == h[1..] + "," + rest;
    }
  }

  /** Parsing part by part: what stands between commas is a hop without the white space around it, and
      no hop if there is nothing else. */
  lemma HopsByPart(part: string, rest: string)
    requires ',' !in part
    ensures Hops(part) == if Strip(part) != [] then [Strip(part)] else []
    ensures Hops(part + "," + rest) == Hops(part) + Hops(rest)
  {
    CommaAfter(part, rest);
    hide Strip, FirstComma;
    assert part[..|part|] == part;
    var via := part + "," + rest;
    assert via[..|part|] == part && via[|part| + 1..] == rest;
  }

  lemma HopsOne(h: string)
    requires IsHop(h)
    ensures Hops(h) == [h]
  {
    HopStays(h);
    CommaAfter(h, "");
    hide Strip, FirstComma;
    assert h[..|h|] == h;
  }

  lemma HopsCons(h: string, rest: string)
    requires IsHop(h)
    ensures Hops(h + "," + rest) == [h] + Hops(rest)
  {
    HopStays(h);
    CommaAfter(h, rest);
    hide Strip, FirstComma;
    var via := h + "," + rest;
    assert via[..|h|] == h && via[|h| + 1..] == rest;
  }

  /** Parsing what was joined gives the parts back. */
  lemma {:induction false} HopsOfJoined(parts: seq<string>)
    requires parts != [] && forall i :: 0 <= i < |parts| ==> IsHop(parts[i])
    ensures Hops(Joined(parts)) == parts
    decreases |parts|
  {
    hide Hops, IsHop;
    if |parts| == 1 {
      HopsOne(parts[0]);
    } else {
      HopsCons(parts[0], Joined(parts[1..]));
      HopsOfJoined(parts[1..]);
      assert parts == [parts[0]] + parts[1..];
    }
  }

  lemma {:induction false} UnstarredIs(h: string)
    ensures !Starred(h) ==> Unstarred(h) == h
    ensures Unstarred(Unstarred(h)) == Unstarred(h) && Unstarred(Unstarred(h) + "*") == Unstarred(h)
  {
    if Starred(h) {
      UnstarredIs(h[..|h| - 1]);
    } else {
      assert (h + "*")[..|h|] == h;
    }
  }

  lemma MergedIsHop(s: string, n: string)
    requires IsHop(s) && IsHop(n) && Unstarred(s) == Unstarred(n)
    ensures IsHop(MergedHop(s, n)) && Unstarred(MergedHop(s, n)) == Unstarred(s)
    ensures Starred(MergedHop(s, n)) <==> Starred(s) || Starred(n)
  {
    UnstarredIs(s);
    UnstarredIs(n);
    var u := Unstarred(s);
    assert forall c :: c in u ==> c in s;
    if !(Starred(s) || Starred(n)) {
      assert MergedHop(s, n) == u + "" == u == s;
    }
  }

  /** Two copies of one beacon: the same digipeaters in the same order. */
  predicate SamePath(stored: string, incoming: string)
  {
    |Hops(stored)| == |Hops(incoming)| > 0 && Names(Hops(stored)) == Names(Hops(incoming))
  }

  lemma MergedParse(stored: string, incoming: string)
    requires SamePath(stored, incoming)
    ensures var m := MergeVia(stored, incoming);
      Hops(m) == MergedHops(Hops(stored), Hops(incoming)) && Names(Hops(m)) == Names(Hops(stored)) && m != []
  {
    var s, n := Hops(stored), Hops(incoming);
    HopsAreHops(stored);
    HopsAreHops(incoming);
    forall i | 0 <= i < |s| ensures IsHop(MergedHop(s[i], n[i])) && Unstarred(MergedHop(s[i], n[i])) == Unstarred(s[i]) {
      assert Names(s)[i] == Names(n)[i];
      MergedIsHop(s[i], n[i]);
    }
    HopsOfJoined(MergedHops(s, n));
    assert Names(MergedHops(s, n)) == Names(s);
    hide Hops, IsHop, MergedHop;
    assert Hops([]) == [] by { NoHops(); }
  }

  lemma NoHops()
    ensures Hops([]) == []
  {
  }

  lemma {:induction false} MergedLen(s: seq<string>, n: seq<string>)
    requires |s| == |n|
    requires forall i :: 0 <= i < |s| ==> (Starred(MergedHop(s[i], n[i])) <==> Starred(s[i]) || Starred(n[i]))
    ensures ConfirmedLen(MergedHops(s, n)) == Max(ConfirmedLen(s), ConfirmedLen(n))
  {
    if s != [] {
      var k := |s| - 1;
      MergedLen(s[..k], n[..k]);
      assert MergedHops(s, n)[..k] == MergedHops(s[..k], n[..k]);
      hide MergedHop, Starred;
    }
  }

  lemma StarsMerge(stored: string, incoming: string)
    requires SamePath(stored, incoming)
    ensures ConfirmedLen(MergedHops(Hops(stored), Hops(incoming)))
            == Max(ConfirmedLen(Hops(stored)), ConfirmedLen(Hops(incoming)))
  {
    hide Hops, IsHop, MergedHop, ConfirmedLen, Starred;
    var s, n := Hops(stored), Hops(incoming);
    HopsAreHops(stored);
    HopsAreHops(incoming);
    forall i | 0 <= i < |s| ensures Starred(MergedHop(s[i], n[i])) <==> Starred(s[i]) || Starred(n[i]) {
      assert Names(s)[i] == Names(n)[i];
      MergedIsHop(s[i], n[i]);
    }
    MergedLen(s, n);
  }

  lemma NamesOfPrefix(m: seq<string>, s: seq<string>, k: nat)
    requires |m| == |s| && Names(m) == Names(s) && k <= |s|
    ensures Names(m[..k]) == Names(s[..k])
  {
    forall i | 0 <= i < k ensures Names(m[..k])[i] == Names(s[..k])[i] {
      assert Names(m)[i] == Names(s)[i];
    }
  }

  /** Merging never unconfirms a hop: the merged path proves exactly the hops that the better
      confirmed of the two copies proves. */
  lemma MergeKeepsConfirmations(src: string, stored: string, incoming: string, bbs: string)
    requires SamePath(stored, incoming)
    ensures var m := MergeVia(stored, incoming);
      ConfirmedEdges(src, m, bbs) ==
        if ConfirmedLen(Hops(stored)) >= ConfirmedLen(Hops(incoming)) then ConfirmedEdges(src, stored, bbs)
        else ConfirmedEdges(src, incoming, bbs)
  {
    hide Hops, MergedHops, ConfirmedLen, ChainEdges, MergeVia, Names;
    var s, n := Hops(stored), Hops(incoming);
    MergedParse(stored, incoming);
    StarsMerge(stored, incoming);
    NoHops();
    var m := MergedHops(s, n);
    NamesOfPrefix(m, s, ConfirmedLen(m));
    NamesOfPrefix(m, n, ConfirmedLen(m));
  }

  /** Copies that do not match are not merged: the newer one stands, but for an empty one. */
  lemma OtherwiseTheNewer(stored: string, incoming: string)
    ensures MergeVia([], incoming) == incoming && MergeVia(stored, []) == stored
    ensures stored != [] && incoming != [] && (|Hops(stored)| != |Hops(incoming)| || Names(Hops(stored)) != Names(Hops(incoming)))
            ==> MergeVia(stored, incoming) == incoming
  {
    hide Hops, Names;
  }

  /** A hop is starred in the merged path if it is in either copy, and keeps its name. */
  lemma MergedHopByHop(stored: string, incoming: string, i: nat)
    requires SamePath(stored, incoming) && i < |Hops(stored)|
    ensures var m := Hops(MergeVia(stored, incoming));
      && |m| == |Hops(stored)| && Unstarred(m[i]) == Unstarred(Hops(stored)[i])
      && (Starred(m[i]) <==> Starred(Hops(stored)[i]) || Starred(Hops(incoming)[i]))
  {
    var s, n := Hops(stored), Hops(incoming);
    MergedParse(stored, incoming);
    HopsAreHops(stored);
    HopsAreHops(incoming);
    assert Names(s)[i] == Names(n)[i];
    MergedIsHop(s[i], n[i]);
    hide Hops, IsHop, MergedHop, MergeVia;
  }

  /** The hops of a chain through `names`, one by one. */
  predicate Runs(es: seq<Edge>, src: string, names: seq<string>, bbs: string)
  {
    && |es| == |names| + 1 && es[0].from == src && es[|names|].to == bbs
    && forall i :: 0 <= i < |names| ==> es[i].to == names[i] && es[i + 1].from == names[i]
  }

  lemma ChainRuns(src: string, names: seq<string>, bbs: string)
    ensures Runs(ChainEdges(src, names, bbs), src, names, bbs)
  {
    hide Links;
    var chain := [src] + names + [bbs];
    LinksAre(chain);
    var es := Links(chain);
    forall i | 0 <= i < |names| ensures es[i].to == names[i] && es[i + 1].from == names[i] {
      assert chain[i + 1] == names[i];
      assert es[i] == Edge(chain[i], chain[i + 1]) && es[i + 1] == Edge(chain[i + 1], chain[i + 2]);
    }
    assert es[0] == Edge(chain[0], chain[1]) && es[|names|] == Edge(chain[|names|], chain[|names| + 1]);
  }

  lemma LinksAre(chain: seq<string>)
    requires chain != []
    ensures forall i :: 0 <= i < |chain| - 1 ==> Links(chain)[i] == Edge(chain[i], chain[i + 1])
  {
  }

  /** The first n hops are those up to the last starred one. */
  predicate UpToLastStar(hops: seq<string>, n: nat)
  {
    0 < n <= |hops| && Starred(hops[n - 1]) && forall i :: n <= i < |hops| ==> !Starred(hops[i])
  }

  lemma {:induction false} ConfirmedLenIs(hops: seq<string>)
    ensures ConfirmedLen(hops) > 0 ==> UpToLastStar(hops, ConfirmedLen(hops))
  {
    if hops != [] && !Starred(hops[|hops| - 1]) {
      ConfirmedLenIs(hops[..|hops| - 1]);
    }
  }

  /** A station heard without digipeaters is one hop away. Otherwise the confirmed hops run from
      the station through every digipeater up to the last starred one to the BBS; there are none
      exactly when no digipeater is starred. */
  lemma ConfirmedIsAChain(src: string, via: string, bbs: string) returns (n: nat)
    ensures via == [] ==> ConfirmedEdges(src, via, bbs) == [Edge(src, bbs)]
    ensures via != [] && ConfirmedEdges(src, via, bbs) != [] ==>
      UpToLastStar(Hops(via), n) && Runs(ConfirmedEdges(src, via, bbs), src, Names(Hops(via)[..n]), bbs)
    ensures ConfirmedEdges(src, via, bbs) == [] <==>
              via != [] && forall i :: 0 <= i < |Hops(via)| ==> !Starred(Hops(via)[i])
  {
    hide Hops, ConfirmedLen, ChainEdges;
    var hops := Hops(via);
    n := ConfirmedLen(hops);
    NoStars(hops);
    ConfirmedLenIs(hops);
    ChainRuns(src, Names(hops[..n]), bbs);
    if via != [] && n > 0 {
      var i :| 0 <= i < |hops| && Starred(hops[i]);
      assert Starred(Hops(via)[i]);
    }
  }

  lemma {:induction false} NoStars(hops: seq<string>)
    ensures ConfirmedLen(hops) == 0 <==> forall i :: 0 <= i < |hops| ==> !Starred(hops[i])
  {
    if hops != [] {
      NoStars(hops[..|hops| - 1]);
    }
  }
}

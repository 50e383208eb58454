/** The alternates kept for one destination: at most three, best first, one per neighbour. */
module Buckets {
  import opened Prelude

  const MAX_ROUTES_PER_DEST := 3

  datatype RouteEntry = RouteEntry(
    destCall: string, alias: string, neighborCall: string, quality: byte,
    viaCall: string, viaAlias: string, lastSeen: real, obsCount: nat)

  function Via(r: RouteEntry): string { Upper(r.viaCall) }

  predicate IsDirect(r: RouteEntry) { Upper(r.viaCall) == Upper(r.destCall) }

  // ---------- The stable sort, best first ----------

  predicate Sorted(s: seq<RouteEntry>)
  {
    forall i, j :: 0 <= i < j < |s| ==> s[i].quality >= s[j].quality
  }

  /** Before the first entry that is not better. */
  function Insert(r: RouteEntry, s: seq<RouteEntry>): seq<RouteEntry>
  {
    if s == [] || s[0].quality <= r.quality then [r] + s else [s[0]] + Insert(r, s[1..])
  }

  /** list.sort(key=quality, reverse=True): equal qualities keep their order. */
  function SortDesc(s: seq<RouteEntry>): seq<RouteEntry>
  {
    if s == [] then [] else Insert(s[0], SortDesc(s[1..]))
  }

  /** How many entries of s beat quality q outright. */
  function Above(s: seq<RouteEntry>, q: byte): nat
  {
    if s == [] then 0 else (if s[0].quality > q then 1 else 0) + Above(s[1..], q)
  }

  /** The position entry i earns: those that beat it, and equals that stood before it. */
  function Rank(s: seq<RouteEntry>, i: nat): nat
    requires i < |s|
  {
    if i == 0 then Above(s[1..], s[0].quality)
    else (if s[0].quality >= s[i].quality then 1 else 0) + Rank(s[1..], i - 1)
  }

  lemma {:induction false} InsertPlaces(r: RouteEntry, s: seq<RouteEntry>)
    requires Sorted(s)
    ensures var p := Above(s, r.quality); p <= |s| && Insert(r, s) == s[..p] + [r] + s[p..]
    ensures forall j :: 0 <= j < |s| ==> (j < Above(s, r.quality) <==> s[j].quality > r.quality)
  {
    if s != [] {
      if s[0].quality <= r.quality {
        NoneAbove(s, r.quality);
      } else {
        InsertPlaces(r, s[1..]);
        var p := Above(s[1..], r.quality);
        assert s[..p + 1] == [s[0]] + s[1..][..p] && s[p + 1..] == s[1..][p..];
        forall j | 0 <= j < |s| ensures j < p + 1 <==> s[j].quality > r.quality {
          if j > 0 {
            assert s[j] == s[1..][j - 1];
          }
        }
      }
    }
  }

  lemma InsertSorted(r: RouteEntry, s: seq<RouteEntry>)
    requires Sorted(s)
    ensures Sorted(Insert(r, s))
  {
    InsertPlaces(r, s);
  }

  lemma {:induction false} InsertMembers(r: RouteEntry, s: seq<RouteEntry>)
    ensures forall x :: x in Insert(r, s) <==> x == r || x in s
  {
    if s != [] && s[0].quality > r.quality {
      InsertMembers(r, s[1..]);
      assert s == [s[0]] + s[1..];
    }
  }

  lemma {:induction false} NoneAbove(s: seq<RouteEntry>, q: byte)
    requires forall j :: 0 <= j < |s| ==> s[j].quality <= q
    ensures Above(s, q) == 0
  {
    if s != [] {
      NoneAbove(s[1..], q);
    }
  }

  /** Inserting an entry counts it once. */
  lemma {:induction false} AboveInsert(r: RouteEntry, s: seq<RouteEntry>, q: byte)
    ensures Above(Insert(r, s), q) == Above(s, q) + (if r.quality > q then 1 else 0)
    ensures |Insert(r, s)| == |s| + 1
  {
    if s == [] || s[0].quality <= r.quality {
      assert ([r] + s)[1..] == s;
    } else {
      AboveInsert(r, s[1..], q);
      assert ([s[0]] + Insert(r, s[1..]))[1..] == Insert(r, s[1..]);
    }
  }

  lemma {:induction false} AboveBySort(s: seq<RouteEntry>, q: byte)
    ensures Above(SortDesc(s), q) == Above(s, q) && |SortDesc(s)| == |s| && Sorted(SortDesc(s))
  {
    hide Insert, Sorted;
    if s == [] {
      NoneSorted();
    } else {
      AboveBySort(s[1..], q);
      AboveInsert(s[0], SortDesc(s[1..]), q);
      InsertSorted(s[0], SortDesc(s[1..]));
    }
  }

  lemma NoneSorted()
    ensures Sorted([])
  {
  }

  /** The sort puts every entry exactly at its rank: it is the stable best-first order. */
  lemma {:induction false} SortedByRank(s: seq<RouteEntry>, i: nat)
    requires i < |s|
    ensures Rank(s, i) < |SortDesc(s)| == |s| && SortDesc(s)[Rank(s, i)] == s[i]
    decreases |s|
  {
    var t := SortDesc(s[1..]);
    AboveBySort(s[1..], s[0].quality);
    InsertPlaces(s[0], t);
    if i > 0 {
      SortedByRank(s[1..], i - 1);
    }
  }

  /** How many entries of s are at least of quality q. */
  function NotBelow(s: seq<RouteEntry>, q: byte): nat
  {
    if s == [] then 0 else (if s[0].quality >= q then 1 else 0) + NotBelow(s[1..], q)
  }

  lemma {:induction false} CountsOrdered(s: seq<RouteEntry>, lo: byte, hi: byte)
    ensures lo < hi ==> NotBelow(s, hi) <= Above(s, lo)
    ensures lo <= hi ==> Above(s, hi) <= Above(s, lo) && NotBelow(s, hi) <= NotBelow(s, lo)
    ensures Above(s, lo) <= NotBelow(s, lo) <= |s|
  {
    if s != [] {
      CountsOrdered(s[1..], lo, hi);
    }
  }

  /** An entry ranks below all that beat it, and above all that it beats. */
  lemma {:induction false} RankBetween(s: seq<RouteEntry>, i: nat)
    requires i < |s|
    ensures Above(s, s[i].quality) <= Rank(s, i) < NotBelow(s, s[i].quality)
  {
    CountsOrdered(s[1..], s[i].quality, s[i].quality);
    if i > 0 {
      RankBetween(s[1..], i - 1);
    }
  }

  /** Ranks are a permutation of the positions: no two entries share one, ... */
  lemma {:induction false} RanksDiffer(s: seq<RouteEntry>, i: nat, j: nat)
    requires i < j < |s|
    ensures Rank(s, i) != Rank(s, j)
  {
    var t := s[1..];
    RankBetween(t, j - 1);
    CountsOrdered(t, s[0].quality, s[j].quality);
    CountsOrdered(t, s[j].quality, s[0].quality);
    if i > 0 {
      RanksDiffer(t, i - 1, j - 1);
      RankBetween(t, i - 1);
      CountsOrdered(t, s[i].quality, s[j].quality);
      CountsOrdered(t, s[j].quality, s[i].quality);
    }
  }

  /** ... and every position is some entry's. */
  lemma {:induction false} RanksFill(s: seq<RouteEntry>, p: nat) returns (i: nat)
    requires p < |s|
    ensures i < |s| && Rank(s, i) == p
  {
    var t := s[1..];
    var own := Above(t, s[0].quality);
    if p == own {
      i := 0;
    } else {
      CountsOrdered(t, s[0].quality, s[0].quality);
      var j := RanksFill(t, if p < own then p else p - 1);
      RankBetween(t, j);
      CountsOrdered(t, s[0].quality, t[j].quality);
      CountsOrdered(t, t[j].quality, s[0].quality);
      i := j + 1;
    }
  }

  /** Sorting what is sorted changes nothing. */
  lemma {:induction false} SortFixed(s: seq<RouteEntry>)
    requires Sorted(s)
    ensures SortDesc(s) == s
  {
    if s != [] {
      SortFixed(s[1..]);
    }
  }

  // ---------- Replacing the same-via entry, and the best three ----------

  /** The position of the entry via v, or |s|. */
  function FindVia(s: seq<RouteEntry>, v: string): (i: nat)
    ensures i <= |s|
    ensures i < |s| ==> Via(s[i]) == v
    ensures forall j :: 0 <= j < i ==> Via(s[j]) != v
  {
    if s == [] || Via(s[0]) == v then 0 else 1 + FindVia(s[1..], v)
  }

  function Replaced(s: seq<RouteEntry>, e: RouteEntry): seq<RouteEntry>
  {
    var i := FindVia(s, Via(e));
    if i < |s| then s[i := e] else s + [e]
  }

  function BestThree(s: seq<RouteEntry>): seq<RouteEntry>
  {
    if |s| > MAX_ROUTES_PER_DEST then s[..MAX_ROUTES_PER_DEST] else s
  }

  function UpsertBucket(s: seq<RouteEntry>, e: RouteEntry): seq<RouteEntry>
  {
    BestThree(SortDesc(Replaced(s, e)))
  }

  predicate DistinctVias(s: seq<RouteEntry>)
  {
    forall i, j :: 0 <= i < j < |s| ==> Via(s[i]) != Via(s[j])
  }

  /** What every stored bucket satisfies. */
  predicate BucketOk(key: string, s: seq<RouteEntry>)
  {
    && 0 < |s| <= MAX_ROUTES_PER_DEST
    && Sorted(s) && DistinctVias(s)
    && forall i :: 0 <= i < |s| ==> Upper(s[i].destCall) == key
  }

  ghost predicate SameMembers(s: seq<RouteEntry>, t: seq<RouteEntry>)
  {
    forall r :: r in s <==> r in t
  }

  lemma {:induction false} SortMembers(s: seq<RouteEntry>)
    ensures SameMembers(SortDesc(s), s)
  {
    if s != [] {
      SortMembers(s[1..]);
      InsertMembers(s[0], SortDesc(s[1..]));
      assert s == [s[0]] + s[1..];
    }
  }

  lemma {:induction false} InsertDistinct(r: RouteEntry, s: seq<RouteEntry>)
    requires DistinctVias(s)
    requires forall x :: x in s ==> Via(x) != Via(r)
    ensures DistinctVias(Insert(r, s))
  {
    if s != [] && s[0].quality > r.quality {
      InsertDistinct(r, s[1..]);
      InsertMembers(r, s[1..]);
      var t := Insert(r, s[1..]);
      forall j | 0 <= j < |t| ensures Via(t[j]) != Via(s[0]) {
        assert t[j] in t;
      }
    }
  }

  lemma {:induction false} SortDistinct(s: seq<RouteEntry>)
    requires DistinctVias(s)
    ensures DistinctVias(SortDesc(s))
  {
    if s != [] {
      SortDistinct(s[1..]);
      SortMembers(s[1..]);
      InsertDistinct(s[0], SortDesc(s[1..]));
    }
  }

  lemma SortKeeps(s: seq<RouteEntry>)
    ensures Sorted(SortDesc(s)) && |SortDesc(s)| == |s| && SameMembers(SortDesc(s), s)
    ensures DistinctVias(s) ==> DistinctVias(SortDesc(s))
  {
    AboveBySort(s, 0);
    SortMembers(s);
    if DistinctVias(s) {
      SortDistinct(s);
    }
  }

  lemma ReplacedKeeps(s: seq<RouteEntry>, e: RouteEntry)
    requires DistinctVias(s)
    ensures DistinctVias(Replaced(s, e))
    ensures forall r :: r in Replaced(s, e) ==> r == e || (r in s && Via(r) != Via(e))
    ensures |Replaced(s, e)| <= |s| + 1 && Replaced(s, e) != []
    ensures FindVia(s, Via(e)) < |s| ==> |Replaced(s, e)| == |s|
    ensures e in Replaced(s, e)
  {
    var i := FindVia(s, Via(e));
    if i < |s| {
      assert Replaced(s, e)[i] == e;
    } else {
      assert Replaced(s, e)[|s|] == e;
    }
  }

  /** The stored bucket keeps its shape. */
  lemma UpsertOk(key: string, s: seq<RouteEntry>, e: RouteEntry)
    requires (s == [] || BucketOk(key, s)) && Upper(e.destCall) == key
    ensures BucketOk(key, UpsertBucket(s, e))
    ensures forall r :: r in UpsertBucket(s, e) ==> r == e || (r in s && Via(r) != Via(e))
  {
    ReplacedKeeps(s, e);
    SortKeeps(Replaced(s, e));
    var t := SortDesc(Replaced(s, e));
    hide SortDesc, Replaced, FindVia;
    assert forall r :: r in BestThree(t) ==> r in t;
    forall i | 0 <= i < |BestThree(t)| ensures Upper(BestThree(t)[i].destCall) == key {
      assert BestThree(t)[i] in t;
    }
  }

  /** An upsert keeps exactly the three best-ranked of the bucket with the same-via entry
      replaced: every position p of the result holds the one entry of rank p. */
  lemma UpsertIsBestThree(s: seq<RouteEntry>, e: RouteEntry, p: nat) returns (i: nat)
    requires p < |UpsertBucket(s, e)|
    ensures |UpsertBucket(s, e)| == Min(MAX_ROUTES_PER_DEST, |Replaced(s, e)|)
    ensures i < |Replaced(s, e)| && Rank(Replaced(s, e), i) == p && UpsertBucket(s, e)[p] == Replaced(s, e)[i]
    ensures forall j :: 0 <= j < |Replaced(s, e)| && j != i ==> Rank(Replaced(s, e), j) != p
  {
    var r := Replaced(s, e);
    AboveBySort(r, 0);
    hide SortDesc, Replaced, Rank;
    i := RanksFill(r, p);
    SortedByRank(r, i);
    forall j | 0 <= j < |r| && j != i ensures Rank(r, j) != p {
      RanksDiffer(r, if i < j then i else j, if i < j then j else i);
    }
  }

  /** Where an entry appended to a sorted list goes: after everything at least as good. */
  function Append(s: seq<RouteEntry>, e: RouteEntry): (t: seq<RouteEntry>)
    ensures |t| == |s| + 1
  {
    if s == [] || s[0].quality < e.quality then [e] + s else [s[0]] + Append(s[1..], e)
  }

  lemma FrontFixed(s: seq<RouteEntry>)
    requires Sorted(s) && s != []
    ensures Insert(s[0], s[1..]) == s
  {
  }

  /** The best of a sorted list goes back to its front. */
  lemma InsertBack(s: seq<RouteEntry>, e: RouteEntry)
    requires Sorted(s) && s != []
    ensures Insert(s[0], Append(s[1..], e)) == Append(s, e)
  {
    var t := s[1..];
    if s[0].quality < e.quality {
      assert Append(t, e) == [e] + t;
      assert ([e] + t)[1..] == t;
      FrontFixed(s);
    } else {
      assert Append(t, e)[0] == e || Append(t, e)[0] == t[0];
    }
  }

  lemma {:induction false} SortAppend(s: seq<RouteEntry>, e: RouteEntry)
    requires Sorted(s)
    ensures SortDesc(s + [e]) == Append(s, e)
  {
    if s == [] {
      SortFixed([e]);
      assert s + [e] == [e];
    } else {
      SortAppend(s[1..], e);
      assert (s + [e])[1..] == s[1..] + [e];
      InsertBack(s, e);
    }
  }

  /** If the appended entry did not get before the end, it is at the end. */
  lemma {:induction false} AppendedLast(s: seq<RouteEntry>, e: RouteEntry)
    requires e !in Append(s, e)[..|s|]
    ensures Append(s, e) == s + [e]
  {
    if s != [] {
      var t := Append(s, e);
      assert t[0] in t[..|s|];
      forall x | x in Append(s[1..], e)[..|s| - 1] ensures x in t[..|s|] {
        var i :| 0 <= i < |s| - 1 && Append(s[1..], e)[i] == x;
        assert t[..|s|][i + 1] == x;
      }
      AppendedLast(s[1..], e);
    }
  }

  lemma {:induction false} Appended(s: seq<RouteEntry>, e: RouteEntry)
    ensures e in Append(s, e)
  {
    if s != [] && s[0].quality >= e.quality {
      Appended(s[1..], e);
    }
  }

  lemma Kept(key: string, s: seq<RouteEntry>, e: RouteEntry)
    requires BucketOk(key, s) && e in s
    ensures UpsertBucket(s, e) == s
  {
    hide SortDesc;
    var k :| 0 <= k < |s| && s[k] == e;
    assert FindVia(s, Via(e)) == k;
    assert Replaced(s, e) == s;
    SortFixed(s);
  }

  /** An entry that does not make it leaves the bucket alone: it came after three better ones. */
  lemma NotKept(key: string, s: seq<RouteEntry>, e: RouteEntry)
    requires (s == [] || BucketOk(key, s)) && e !in UpsertBucket(s, e)
    ensures UpsertBucket(s, e) == s
  {
    hide SortDesc, Append;
    ReplacedKeeps(s, e);
    SortKeeps(Replaced(s, e));
    SortAppend(s, e);
    Appended(s, e);
    if |Replaced(s, e)| > MAX_ROUTES_PER_DEST {
      AppendedLast(s, e);
    }
  }

  /** Hearing the same thing twice changes nothing the second time, even for an entry that
      did not make the best three. */
  lemma UpsertIdempotent(key: string, s: seq<RouteEntry>, e: RouteEntry)
    requires (s == [] || BucketOk(key, s)) && Upper(e.destCall) == key
    ensures UpsertBucket(UpsertBucket(s, e), e) == UpsertBucket(s, e)
  {
    hide UpsertBucket, BucketOk;
    UpsertOk(key, s, e);
    if e in UpsertBucket(s, e) {
      Kept(key, UpsertBucket(s, e), e);
    } else {
      NotKept(key, s, e);
    }
  }

  // ---------- One neighbour's seat among the others ----------

  /** The route r at position p among the others. */
  function Place(others: seq<RouteEntry>, r: RouteEntry, p: nat): seq<RouteEntry>
    requires p <= |others|
  {
    others[..p] + [r] + others[p..]
  }

  /** Where a route of quality q that stood at p ends up: as little as possible away from p, after
      all that beat it and before all that it beats. */
  function Seat(others: seq<RouteEntry>, q: byte, p: nat): (seat: nat)
    requires p <= |others|
    ensures seat <= |others|
  {
    CountsOrdered(others, q, q);
    Max(Above(others, q), Min(p, NotBelow(others, q)))
  }

  lemma {:induction false} NoneNotBelow(s: seq<RouteEntry>, q: byte)
    requires forall j :: 0 <= j < |s| ==> s[j].quality < q
    ensures NotBelow(s, q) == 0 && Above(s, q) == 0
  {
    if s != [] {
      NoneNotBelow(s[1..], q);
    }
  }

  lemma SortPlaceFirst(others: seq<RouteEntry>, r: RouteEntry)
    requires Sorted(others)
    ensures SortDesc(Place(others, r, 0)) == Place(others, r, Seat(others, r.quality, 0))
  {
    SortFixed(others);
    InsertPlaces(r, others);
    hide Insert, Above;
    assert Place(others, r, 0) == [r] + others;
    assert ([r] + others)[1..] == others;
  }

  lemma SeatOfTail(others: seq<RouteEntry>, q: byte, p: nat)
    requires Sorted(others) && 0 < p <= |others|
    ensures if q <= others[0].quality then Seat(others, q, p) == 1 + Seat(others[1..], q, p - 1)
            else Seat(others, q, p) == 0 && Seat(others[1..], q, p - 1) == 0
  {
    if q > others[0].quality {
      NoneNotBelow(others, q);
      NoneNotBelow(others[1..], q);
    } else if q == others[0].quality {
      NoneAbove(others, q);
      NoneAbove(others[1..], q);
    }
  }

  /** Sorting moves the one route that is out of place to its seat. */
  lemma {:induction false} SortPlace(others: seq<RouteEntry>, r: RouteEntry, p: nat)
    requires Sorted(others) && p <= |others|
    ensures SortDesc(Place(others, r, p)) == Place(others, r, Seat(others, r.quality, p))
    decreases |others|
  {
    if p == 0 {
      SortPlaceFirst(others, r);
    } else {
      hide Seat, Insert;
      var first, tail := others[0], others[1..];
      SortPlace(tail, r, p - 1);
      SeatOfTail(others, r.quality, p);
      var seat := Seat(tail, r.quality, p - 1);
      PlaceOfTail(others, r, p);
      assert Place(others, r, p)[1..] == Place(tail, r, p - 1);
      if r.quality <= first.quality {
        PlaceOfTail(others, r, seat + 1);
        InsertFront(first, Place(tail, r, seat));
      } else {
        InsertSecond(first, r, tail);
        assert Place(tail, r, 0) == [r] + tail && Place(others, r, 0) == [r] + others && others == [first] + tail;
      }
    }
  }

  lemma PlaceOfTail(others: seq<RouteEntry>, r: RouteEntry, p: nat)
    requires 0 < p <= |others|
    ensures Place(others, r, p) == [others[0]] + Place(others[1..], r, p - 1)
  {
  }

  lemma InsertFront(first: RouteEntry, s: seq<RouteEntry>)
    requires s != [] ==> s[0].quality <= first.quality
    ensures Insert(first, s) == [first] + s
  {
  }

  lemma InsertSecond(first: RouteEntry, r: RouteEntry, tail: seq<RouteEntry>)
    requires first.quality < r.quality && (tail != [] ==> tail[0].quality <= first.quality)
    ensures Insert(first, [r] + tail) == [r] + [first] + tail
  {
    assert ([r] + tail)[1..] == tail;
  }

  predicate NoneVia(s: seq<RouteEntry>, v: string) { forall i :: 0 <= i < |s| ==> Via(s[i]) != v }

  /** An upsert of a neighbour that has its seat replaces its route and moves it. */
  lemma UpsertPlaced(others: seq<RouteEntry>, was: RouteEntry, p: nat, r: RouteEntry)
    requires Sorted(others) && |others| < MAX_ROUTES_PER_DEST && p <= |others|
    requires Via(was) == Via(r) && NoneVia(others, Via(r))
    ensures UpsertBucket(Place(others, was, p), r) == Place(others, r, Seat(others, r.quality, p))
  {
    var s := Place(others, was, p);
    FindAt(s, p, Via(r));
    hide SortDesc, FindVia, Seat;
    assert Replaced(s, r) == Place(others, r, p);
    SortPlace(others, r, p);
  }

  lemma FindAt(s: seq<RouteEntry>, p: nat, v: string)
    requires p < |s| && Via(s[p]) == v && forall i :: 0 <= i < p ==> Via(s[i]) != v
    ensures FindVia(s, v) == p
  {
  }

  /** A bucket that holds a neighbour's route is that route in its seat among the others. */
  lemma PlacedIn(key: string, s: seq<RouteEntry>, r: RouteEntry) returns (others: seq<RouteEntry>, p: nat)
    requires BucketOk(key, s) && r in s
    ensures p <= |others| < MAX_ROUTES_PER_DEST && s == Place(others, r, p)
    ensures Sorted(others) && NoneVia(others, Via(r)) && Seat(others, r.quality, p) == p
    ensures p == FindVia(s, Via(r)) && others == s[..p] + s[p + 1..]
  {
    hide Seat, Sorted, FindVia, Via;
    p :| 0 <= p < |s| && s[p] == r;
    others := s[..p] + s[p + 1..];
    assert s == Place(others, r, p);
    WithoutOne(s, p);
    SeatOfSorted(others, r, p);
  }

  lemma WithoutOne(s: seq<RouteEntry>, p: nat)
    requires DistinctVias(s) && p < |s|
    ensures NoneVia(s[..p] + s[p + 1..], Via(s[p])) && FindVia(s, Via(s[p])) == p
  {
    hide Via;
    FindAt(s, p, Via(s[p]));
  }

  lemma {:induction false} SeatOfSorted(others: seq<RouteEntry>, r: RouteEntry, p: nat)
    requires p <= |others| && Sorted(Place(others, r, p))
    ensures Sorted(others) && Seat(others, r.quality, p) == p
  {
    var s := Place(others, r, p);
    assert s[p] == r;
    forall i, j | 0 <= i < j < |others| ensures others[i].quality >= others[j].quality {
      assert others[i] == s[if i < p then i else i + 1] && others[j] == s[if j < p then j else j + 1];
    }
    forall i | 0 <= i < |others| ensures if i < p then others[i].quality >= r.quality else others[i].quality <= r.quality {
      assert others[i] == s[if i < p then i else i + 1];
    }
    SeatBounds(others, r.quality, p);
  }

  lemma {:induction false} SeatBounds(others: seq<RouteEntry>, q: byte, p: nat)
    requires p <= |others|
    requires forall i :: 0 <= i < p ==> others[i].quality >= q
    requires forall i :: p <= i < |others| ==> others[i].quality <= q
    ensures Above(others, q) <= p <= NotBelow(others, q)
  {
    if others != [] {
      if p > 0 {
        SeatBounds(others[1..], q, p - 1);
      } else {
        NoneAbove(others, q);
      }
    }
  }

  /** Two placings are the same only with the same route in the same seat. */
  lemma PlacesDiffer(others: seq<RouteEntry>, r: RouteEntry, p: nat, r': RouteEntry, p': nat)
    requires p <= |others| && p' <= |others| && Via(r) == Via(r') && NoneVia(others, Via(r))
    ensures Place(others, r, p) == Place(others, r', p') <==> r == r' && p == p'
  {
    var s, s' := Place(others, r, p), Place(others, r', p');
    assert s[p] == r && s'[p'] == r';
    if p < p' {
      assert s'[p] == others[p];
    } else if p' < p {
      assert s[p'] == others[p'];
    }
  }
}

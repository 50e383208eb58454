/** NODES broadcasts on the wire: a discriminator, the source alias, and 21 bytes an entry. */
module NodesCodec {
  import opened Prelude
  import opened WireCalls
  import opened RouterTables

  const ROUTING_DISCRIMINATOR: byte := 0xFF
  const HEADER_LEN := 1 + ALIAS_LEN
  const ENTRY_LEN := ADDR_LEN + ALIAS_LEN + ADDR_LEN + 1

  /** None stands for the exception on a callsign with a malformed SSID. */
  function EncodeEntry(e: NodeEntry): (w: Option<seq<byte>>)
    ensures w.Some? ==> |w.value| == ENTRY_LEN
  {
    match (EncodeWireCall(e.destCall), EncodeWireCall(e.neighborCall))
    case (Some(dest), Some(neighbor)) => Some(dest + EncodeAlias(e.alias) + neighbor + [e.quality])
    case _ => None
  }

  function EncodeEntries(es: seq<NodeEntry>): (w: Option<seq<byte>>)
    ensures w.Some? ==> |w.value| == ENTRY_LEN * |es|
  {
    if es == [] then Some([])
    else match (EncodeEntries(es[..|es| - 1]), EncodeEntry(es[|es| - 1]))
      case (Some(front), Some(last)) => Some(front + last)
      case _ => None
  }

  function Header(alias: string): (h: seq<byte>)
    ensures |h| == HEADER_LEN
  {
    [ROUTING_DISCRIMINATOR] + EncodeAlias(alias)
  }

  function EncodeNodes(alias: string, es: seq<NodeEntry>): Option<seq<byte>>
  {
    match EncodeEntries(es)
    case Some(w) => Some(Header(alias) + w)
    case None => None
  }

  function DecodeEntry(chunk: seq<byte>): NodeEntry
    requires |chunk| == ENTRY_LEN
  {
    NodeEntry(DecodeWireCall(chunk[..7]), DecodeAlias(chunk[7..13]), DecodeWireCall(chunk[13..20]), chunk[20])
  }

  /** An entry whose destination decodes to nothing is skipped; a short tail is ignored. */
  function DecodeEntries(data: seq<byte>): seq<NodeEntry>
  {
    if |data| < ENTRY_LEN then []
    else
      var e := DecodeEntry(data[..ENTRY_LEN]);
      (if e.destCall != [] then [e] else []) + DecodeEntries(data[ENTRY_LEN..])
  }

  function DecodeNodes(src: string, payload: seq<byte>): Option<NodesFrame>
  {
    if |payload| < HEADER_LEN || payload[0] != ROUTING_DISCRIMINATOR then None
    else Some(NodesFrame(src, DecodeAlias(payload[1..HEADER_LEN]), DecodeEntries(payload[HEADER_LEN..])))
  }

  lemma EncodeSnoc(es: seq<NodeEntry>, i: nat)
    requires i < |es| && EncodeEntries(es[..i]).Some?
    ensures EncodeEntries(es[..i + 1]) ==
            match EncodeEntry(es[i]) case Some(w) => Some(EncodeEntries(es[..i]).value + w) case None => None
  {
    hide EncodeEntry;
    assert es[..i + 1][..i] == es[..i];
  }

  method EncodeNodesBroadcast(alias: string, es: seq<NodeEntry>) returns (w: Option<seq<byte>>)
    ensures w == EncodeNodes(alias, es)
  {
    hide EncodeAlias, EncodeEntries, EncodeWireCall;
    var out := [ROUTING_DISCRIMINATOR];
    out := out + EncodeAlias(alias);
    assert EncodeEntries(es[..0]) == Some([]) by { NoEntries(); }
    for i := 0 to |es|
      invariant EncodeEntries(es[..i]).Some? && out == Header(alias) + EncodeEntries(es[..i]).value
    {
      EncodeSnoc(es, i);
      var dest := EncodeWireCall(es[i].destCall);
      var neighbor := EncodeWireCall(es[i].neighborCall);
      if dest.None? || neighbor.None? {
        FailsFrom(es, i);
        return None;
      }
      var was := out;
      out := out + dest.value;
      out := out + EncodeAlias(es[i].alias);
      out := out + neighbor.value;
      out := out + [es[i].quality];
      assert out == was + (dest.value + EncodeAlias(es[i].alias) + neighbor.value + [es[i].quality]);
    }
    assert es[..|es|] == es;
    w := Some(out);
  }

  lemma NoEntries()
    ensures EncodeEntries([]) == Some([])
  {
  }

  lemma {:induction false} FailsFrom(es: seq<NodeEntry>, i: nat)
    requires i < |es| && EncodeEntry(es[i]).None?
    ensures EncodeEntries(es).None?
  {
    if i < |es| - 1 {
      FailsFrom(es[..|es| - 1], i);
    }
  }

  lemma DecodeNext(payload: seq<byte>, offset: nat)
    requires offset + ENTRY_LEN <= |payload|
    ensures var e := DecodeEntry(payload[offset..offset + ENTRY_LEN]);
      DecodeEntries(payload[offset..])
      == (if e.destCall != [] then [e] else []) + DecodeEntries(payload[offset + ENTRY_LEN..])
  {
    hide DecodeEntry;
    assert payload[offset..][..ENTRY_LEN] == payload[offset..offset + ENTRY_LEN];
    assert payload[offset..][ENTRY_LEN..] == payload[offset + ENTRY_LEN..];
  }

  method DecodeNodesBroadcast(src: string, payload: seq<byte>) returns (f: Option<NodesFrame>)
    ensures f == DecodeNodes(src, payload)
  {
    hide DecodeEntry, DecodeAlias, DecodeEntries;
    if |payload| < HEADER_LEN || payload[0] != ROUTING_DISCRIMINATOR {
      return None;
    }
    var entries: seq<NodeEntry> := [];
    var offset := HEADER_LEN;
    ghost var all := DecodeEntries(payload[HEADER_LEN..]);
    while offset + ENTRY_LEN <= |payload|
      invariant HEADER_LEN <= offset <= |payload|
      invariant entries + DecodeEntries(payload[offset..]) == all
    {
      var e := DecodeEntry(payload[offset..offset + ENTRY_LEN]);
      DecodeNext(payload, offset);
      if e.destCall != [] {
        entries := entries + [e];
      }
      offset := offset + ENTRY_LEN;
    }
    NoMore(payload[offset..]);
    assert entries == all;
    f := Some(NodesFrame(src, DecodeAlias(payload[1..HEADER_LEN]), entries));
  }

  lemma NoMore(data: seq<byte>)
    requires |data| < ENTRY_LEN
    ensures DecodeEntries(data) == []
  {
  }

  // ---------- Round trips ----------

  ghost predicate CanonicalEntry(e: NodeEntry)
  {
    Canonical(e.destCall) && AliasOk(e.alias) && Canonical(e.neighborCall)
  }

  ghost predicate AllCanonical(es: seq<NodeEntry>)
  {
    forall i :: 0 <= i < |es| ==> CanonicalEntry(es[i])
  }

  lemma EntryRoundTrip(e: NodeEntry)
    requires CanonicalEntry(e)
    ensures EncodeEntry(e).Some? && DecodeEntry(EncodeEntry(e).value) == e && e.destCall != []
  {
    CallRoundTrip(e.destCall);
    CallRoundTrip(e.neighborCall);
    AliasRoundTripIff(e.alias);
    hide Canonical, AliasOk, EncodeWireCall, DecodeWireCall, EncodeAlias, DecodeAlias;
    var dest, neighbor := EncodeWireCall(e.destCall).value, EncodeWireCall(e.neighborCall).value;
    var w := dest + EncodeAlias(e.alias) + neighbor + [e.quality];
    assert w[..7] == dest && w[7..13] == EncodeAlias(e.alias) && w[13..20] == neighbor;
  }

  lemma {:induction false} DecodeConcat(n: nat, a: seq<byte>, b: seq<byte>)
    requires |a| == ENTRY_LEN * n
    ensures DecodeEntries(a + b) == DecodeEntries(a) + DecodeEntries(b)
  {
    hide DecodeEntry;
    if a == [] {
      assert a + b == b;
    } else {
      assert (a + b)[..ENTRY_LEN] == a[..ENTRY_LEN];
      assert (a + b)[ENTRY_LEN..] == a[ENTRY_LEN..] + b;
      DecodeConcat(n - 1, a[ENTRY_LEN..], b);
    }
  }

  lemma OneEntry(w: seq<byte>)
    requires |w| == ENTRY_LEN && DecodeEntry(w).destCall != []
    ensures DecodeEntries(w) == [DecodeEntry(w)]
  {
    hide DecodeEntry;
    assert w[..ENTRY_LEN] == w && w[ENTRY_LEN..] == [];
  }

  lemma EntryAppended(front: seq<byte>, es: seq<NodeEntry>, e: NodeEntry)
    requires |front| == ENTRY_LEN * |es| && DecodeEntries(front) == es && CanonicalEntry(e)
    ensures EncodeEntry(e).Some? && DecodeEntries(front + EncodeEntry(e).value) == es + [e]
  {
    EntryRoundTrip(e);
    var last := EncodeEntry(e).value;
    DecodeConcat(|es|, front, last);
    OneEntry(last);
  }

  lemma {:induction false} EntriesRoundTrip(es: seq<NodeEntry>)
    requires AllCanonical(es)
    ensures EncodeEntries(es).Some? && DecodeEntries(EncodeEntries(es).value) == es
  {
    hide EncodeEntry, CanonicalEntry;
    if es == [] {
      NoEntries();
      NoMore([]);
    } else {
      var n := |es| - 1;
      EntriesRoundTrip(es[..n]);
      hide DecodeEntries;
      assert CanonicalEntry(es[n]);
      EntryAppended(EncodeEntries(es[..n]).value, es[..n], es[n]);
      assert es == es[..n] + [es[n]];
    }
  }

  /** A broadcast of canonical entries comes back entry for entry. */
  lemma NodesRoundTrip(src: string, alias: string, es: seq<NodeEntry>)
    requires AliasOk(alias) && AllCanonical(es)
    ensures EncodeNodes(alias, es).Some?
    ensures |EncodeNodes(alias, es).value| == HEADER_LEN + ENTRY_LEN * |es|
    ensures DecodeNodes(src, EncodeNodes(alias, es).value) == Some(NodesFrame(src, alias, es))
  {
    AliasRoundTripIff(alias);
    EntriesRoundTrip(es);
    hide EncodeAlias, DecodeAlias, EncodeEntries, DecodeEntries, AliasOk, AllCanonical;
    var w := EncodeNodes(alias, es).value;
    assert w[1..HEADER_LEN] == EncodeAlias(alias) && w[HEADER_LEN..] == EncodeEntries(es).value;
  }
}

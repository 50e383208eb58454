/** Fragmentation against reassembly: when does a fragment stream come out of the
    receiver exactly as it was written?

    A receiver that has accepted `fs` holds `Reassemble(fs)`.  It loses bytes only
    when a run of MORE_FOLLOWS fragments outgrows the reassembly ceiling, so
    `RunsFit` is the exact condition for a lossless transfer. */
module Reassembly {
  import opened Prelude
  import opened Circuit

  /** The receive side after accepting exactly the fragments `fs`, in order. */
  function Reassemble(fs: seq<Fragment>): Inbox
  {
    if fs == [] then Inbox([], []) else Absorb(Reassemble(fs[..|fs| - 1]), fs[|fs| - 1])
  }

  /** All payload bytes of `fs`, in order. */
  function Bytes(fs: seq<Fragment>): seq<byte>
  {
    if fs == [] then [] else Bytes(fs[..|fs| - 1]) + fs[|fs| - 1].chunk
  }

  /** Bytes since the last fragment that ended a message. */
  function OpenRun(fs: seq<Fragment>): nat
  {
    if fs == [] then 0
    else if fs[|fs| - 1].more then OpenRun(fs[..|fs| - 1]) + |fs[|fs| - 1].chunk|
    else 0
  }

  predicate RunsFit(fs: seq<Fragment>)
  {
    fs == [] ||
    (RunsFit(fs[..|fs| - 1]) && OpenRun(fs[..|fs| - 1]) + |fs[|fs| - 1].chunk| <= MAX_REASSEMBLY_BYTES)
  }

  lemma Snoc(fs: seq<Fragment>, f: Fragment)
    ensures Reassemble(fs + [f]) == Absorb(Reassemble(fs), f)
    ensures Bytes(fs + [f]) == Bytes(fs) + f.chunk
    ensures OpenRun(fs + [f]) == if f.more then OpenRun(fs) + |f.chunk| else 0
    ensures RunsFit(fs + [f]) <==> RunsFit(fs) && OpenRun(fs) + |f.chunk| <= MAX_REASSEMBLY_BYTES
  {
    assert (fs + [f])[..|fs|] == fs;
  }

  lemma {:induction false} BytesConcat(fs: seq<Fragment>, gs: seq<Fragment>)
    ensures Bytes(fs + gs) == Bytes(fs) + Bytes(gs)
  {
    if gs == [] {
      assert fs + gs == fs;
    } else {
      var init, g := gs[..|gs| - 1], gs[|gs| - 1];
      BytesConcat(fs, init);
      calc {
        Bytes(fs + gs);
        { assert fs + gs == (fs + init) + [g]; }
        Bytes((fs + init) + [g]);
        { Snoc(fs + init, g); }
        (Bytes(fs) + Bytes(init)) + g.chunk;
        Bytes(fs) + (Bytes(init) + g.chunk);
      }
    }
  }

  lemma {:induction false} RunsFitPrefix(fs: seq<Fragment>, gs: seq<Fragment>)
    requires RunsFit(fs + gs)
    ensures RunsFit(fs)
  {
    if gs == [] {
      assert fs + gs == fs;
    } else {
      assert fs + gs == (fs + gs[..|gs| - 1]) + [gs[|gs| - 1]];
      Snoc(fs + gs[..|gs| - 1], gs[|gs| - 1]);
      RunsFitPrefix(fs, gs[..|gs| - 1]);
    }
  }

  /** Reassembly never invents or reorders: it is lossless exactly when every run fits. */
  lemma {:induction false} LosslessIffRunsFit(fs: seq<Fragment>)
    ensures RunsFit(fs) ==> |Reassemble(fs).partial| == OpenRun(fs)
    ensures RunsFit(fs) ==> Reassemble(fs).delivered + Reassemble(fs).partial == Bytes(fs)
    ensures !RunsFit(fs) ==> |Reassemble(fs).delivered| + |Reassemble(fs).partial| < |Bytes(fs)|
  {
    if fs != [] {
      var init, f := fs[..|fs| - 1], fs[|fs| - 1];
      LosslessIffRunsFit(init);
      var box := Reassemble(init);
      assert box.delivered + (box.partial + f.chunk) == (box.delivered + box.partial) + f.chunk;
    }
  }

  /** Cutting a message into fragments keeps its bytes. */
  lemma {:induction false} FragmentsKeepBytes(fs: seq<Fragment>, data: seq<byte>, mtu: Mtu)
    ensures Bytes(fs + Fragments(data, mtu)) == Bytes(fs) + data
    decreases |data|
  {
    hide Reassemble, OpenRun, RunsFit, Bytes;
    if |data| <= mtu {
      Snoc(fs, Fragment(data, false));
    } else {
      var f, rest := Fragment(data[..mtu], true), Fragments(data[mtu..], mtu);
      assert Fragments(data, mtu) == [f] + rest;
      hide Fragments;
      Snoc(fs, f);
      FragmentsKeepBytes(fs + [f], data[mtu..], mtu);
      assert fs + ([f] + rest) == (fs + [f]) + rest;
      assert data == data[..mtu] + data[mtu..];
    }
  }

  /** A message goes out in full fragments but for the last: each of exactly the MTU and marked
      MORE_FOLLOWS, then one with the rest, unmarked; so there are as few as there can be. */
  lemma {:induction false} FragmentsAreFull(data: seq<byte>, mtu: Mtu, i: nat)
    requires i < |Fragments(data, mtu)|
    ensures var fs := Fragments(data, mtu); var last := |fs| - 1;
      && (i < last ==> |fs[i].chunk| == mtu && fs[i].more)
      && (i == last ==> |fs[i].chunk| <= mtu && !fs[i].more && (data != [] ==> fs[i].chunk != []))
      && last * mtu <= |data| <= |fs| * mtu
    decreases |data|
  {
    if |data| > mtu {
      FragmentsAreFull(data[mtu..], mtu, if i == 0 then 0 else i - 1);
      assert |Fragments(data, mtu)| == 1 + |Fragments(data[mtu..], mtu)|;
    }
  }

  /** One message fits, whatever the MTU, exactly when it is within the ceiling. */
  lemma {:induction false} MessageFitsIff(fs: seq<Fragment>, data: seq<byte>, mtu: Mtu)
    ensures RunsFit(fs + Fragments(data, mtu))
       <==> RunsFit(fs) && OpenRun(fs) + |data| <= MAX_REASSEMBLY_BYTES
    ensures OpenRun(fs + Fragments(data, mtu)) == 0
    decreases |data|
  {
    if |data| <= mtu {
      Snoc(fs, Fragment(data, false));
    } else {
      var f := Fragment(data[..mtu], true);
      Snoc(fs, f);
      MessageFitsIff(fs + [f], data[mtu..], mtu);
      assert fs + Fragments(data, mtu) == (fs + [f]) + Fragments(data[mtu..], mtu);
    }
  }
}

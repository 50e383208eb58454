/** The receive-side quality composition of NET/ROM 1.3 (manual p.65, rule 5). */
module RouteQuality {
  import opened Prelude

  /** advertised x path, as fractions of 256, rounded to the nearest 256th. */
  function Compose(advertised: byte, path: byte): (q: byte)
    ensures q <= advertised && q <= path
    ensures 2 * (advertised * path - 256 * q) <= 256 && 2 * (256 * q - advertised * path) <= 256
  {
    ProductBound(advertised, path);
    (advertised * path + 128) / 256
  }

  lemma Times(a: nat, b: nat, c: nat)
    requires a <= b
    ensures 0 <= a * c <= b * c
  {
    assert (b - a) * c >= 0;
  }

  lemma ProductBound(a: byte, p: byte)
    ensures 0 <= a * p <= 255 * a && a * p <= 255 * p
  {
    Times(p, 255, a);
    Times(a, 255, p);
    assert a * p == p * a;
  }

  /** A better advertisement or a better link never gives a worse route. */
  lemma ComposeMonotone(a: byte, p: byte, a': byte, p': byte)
    requires a <= a' && p <= p'
    ensures Compose(a, p) <= Compose(a', p')
  {
    assert a * p <= a' * p <= a' * p';
  }

  /** A hop costs something exactly when the exact loss exceeds half a 256th. */
  lemma HopCostsIff(a: byte, p: byte)
    ensures Compose(a, p) < a <==> a * (256 - p) > 128
  {
    assert a * (256 - p) == 256 * a - a * p;
  }

  /** The quality that n links leave of an advertisement, as the routers compute it ... */
  function Along(a: byte, links: seq<byte>): byte
  {
    if links == [] then a else Compose(Along(a, links[..|links| - 1]), links[|links| - 1])
  }

  function Fraction(p: byte): (f: real)
    ensures 0.0 <= f <= 1.0
  {
    p as real / 256.0
  }

  function Attenuated(e: real, p: byte): real { e * Fraction(p) }

  /** ... and exactly. */
  function Exactly(a: real, links: seq<byte>): real
  {
    if links == [] then a else Attenuated(Exactly(a, links[..|links| - 1]), links[|links| - 1])
  }

  lemma NonNegative(x: real, y: real)
    requires x >= 0.0 && y >= 0.0
    ensures x * y >= 0.0
  {
  }

  /** Shrinking an interval about zero by a factor of at most one keeps it inside. */
  lemma Scaled(x: real, d: real, f: real)
    requires -d <= x <= d && 0.0 <= f <= 1.0
    ensures -d <= x * f <= d
  {
    NonNegative(d - x, f);
    NonNegative(d + x, f);
    NonNegative(d, 1.0 - f);
    assert (d - x) * f == d * f - x * f;
    assert (d + x) * f == d * f + x * f;
    assert d * (1.0 - f) == d - d * f;
  }

  lemma RealProduct(q: int, p: int)
    ensures (q * p) as real == q as real * p as real
  {
  }

  /** The rounding of one link. */
  lemma Nearest(q: byte, p: byte)
    ensures -0.5 <= Compose(q, p) as real - q as real * Fraction(p) <= 0.5
  {
    RealProduct(q, p);
    var exact := q as real * p as real;
    assert q as real * Fraction(p) == exact / 256.0;
    var c := Compose(q, p);
    hide Compose, Fraction;
    assert -128.0 <= 256.0 * c as real - exact <= 128.0;
  }

  /** A link passes on the drift it is given, shrunk, and adds its own rounding. */
  lemma OneLink(q: byte, e: real, p: byte, d: real)
    requires -d <= q as real - e <= d
    ensures -d - 0.5 <= Compose(q, p) as real - Attenuated(e, p) <= d + 0.5
  {
    Nearest(q, p);
    var f := Fraction(p);
    hide Compose, Fraction;
    Scaled(q as real - e, d, f);
    assert (q as real - e) * f == q as real * f - e * f;
  }

  function Halves(n: nat): (h: real)
    ensures n > 0 ==> h == Halves(n - 1) + 0.5
  {
    if n == 0 then 0.0 else Halves(n - 1) + 0.5
  }

  lemma {:induction false} DriftByHalves(a: byte, links: seq<byte>)
    ensures -Halves(|links|) <= Along(a, links) as real - Exactly(a as real, links) <= Halves(|links|)
  {
    hide Compose, Fraction, Attenuated;
    if links != [] {
      var init, p := links[..|links| - 1], links[|links| - 1];
      DriftByHalves(a, init);
      OneLink(Along(a, init), Exactly(a as real, init), p, Halves(|init|));
    }
  }

  lemma {:induction false} HalvesAreHalves(n: nat)
    ensures Halves(n) == n as real / 2.0
  {
    if n > 0 {
      HalvesAreHalves(n - 1);
    }
  }

  /** Rounding never drifts by more than half a 256th per link. */
  lemma DriftIsHalfPerLink(a: byte, links: seq<byte>)
    ensures -(|links| as real / 2.0) <= Along(a, links) as real - Exactly(a as real, links) <= |links| as real / 2.0
  {
    hide Along, Exactly;
    DriftByHalves(a, links);
    HalvesAreHalves(|links|);
  }

  /** A route is never better than the advertisement or any link it crosses. */
  lemma {:induction false} NeverBetterThanALink(a: byte, links: seq<byte>)
    ensures Along(a, links) <= a
    ensures forall i :: 0 <= i < |links| ==> Along(a, links) <= links[i]
  {
    if links != [] {
      var init := links[..|links| - 1];
      NeverBetterThanALink(a, init);
      assert forall i :: 0 <= i < |init| ==> init[i] == links[i];
    }
  }
}

/**
 * Positions and the coordinate transform of a TopoJSON topology.
 *
 * Coordinates are exact reals: this is an idealisation of the JavaScript
 * doubles the program computes with. Quantized positions are the reals that
 * happen to be integers.
 */
module Geometry {

  /** A position [x, y]. */
  datatype Pos = Pos(x: real, y: real)

  const Origin: Pos := Pos(0.0, 0.0)

  function Add(p: Pos, q: Pos): Pos {
    Pos(p.x + q.x, p.y + q.y)
  }

  function Sub(p: Pos, q: Pos): Pos {
    Pos(p.x - q.x, p.y - q.y)
  }

  predicate IsIntegral(v: real) {
    v == v.Floor as real
  }

  /** A position on the integer grid of a quantized topology. */
  predicate IsQuantized(p: Pos) {
    IsIntegral(p.x) && IsIntegral(p.y)
  }

  lemma IntIsIntegral(n: int)
    ensures IsIntegral(n as real)
  {
  }

  lemma AddQuantized(p: Pos, q: Pos)
    requires IsQuantized(p) && IsQuantized(q)
    ensures IsQuantized(Add(p, q))
  {
    var nx, ny := p.x.Floor + q.x.Floor, p.y.Floor + q.y.Floor;
    assert p.x + q.x == nx as real;
    assert p.y + q.y == ny as real;
    IntIsIntegral(nx);
    IntIsIntegral(ny);
  }

  /** The "transform" member of a quantized topology: scale [kx, ky] and translate [dx, dy]. */
  datatype Transform = Transform(scale: Pos, translate: Pos)

  /** A zero scale maps the whole grid onto one line; it cannot be inverted. */
  predicate NonDegenerate(t: Transform) {
    t.scale.x != 0.0 && t.scale.y != 0.0
  }

  /** Dequantization: x * kx + dx, y * ky + dy. */
  function ToReal(t: Transform, q: Pos): Pos {
    Pos(q.x * t.scale.x + t.translate.x, q.y * t.scale.y + t.translate.y)
  }

  /** JavaScript's Math.round: the nearest integer, halves rounded up. */
  function RoundHalfUp(v: real): (n: int)
    ensures v - 0.5 < n as real <= v + 0.5
  {
    (v + 0.5).Floor
  }

  lemma RoundHalfUpIntegral(v: real)
    requires IsIntegral(v)
    ensures RoundHalfUp(v) as real == v
  {
    var n := v.Floor;
    var w := v + 0.5;
    var m := w.Floor;
    assert m as real <= w < m as real + 1.0;
    assert w == n as real + 0.5;
    assert (m - n) as real < 1.0 && (m - n) as real > -1.0;
    assert m - n == 0;
  }

  /** Quantization, the inverse of ToReal up to rounding to the grid. */
  function Quantize(t: Transform, p: Pos): (q: Pos)
    requires NonDegenerate(t)
    ensures IsQuantized(q)
  {
    Pos(RoundHalfUp((p.x - t.translate.x) / t.scale.x) as real,
        RoundHalfUp((p.y - t.translate.y) / t.scale.y) as real)
  }

  /** Quantizing a dequantized grid position gives back that grid position. */
  lemma QuantizeToReal(t: Transform, q: Pos)
    requires NonDegenerate(t) && IsQuantized(q)
    ensures Quantize(t, ToReal(t, q)) == q
  {
    var r := ToReal(t, q);
    assert (r.x - t.translate.x) / t.scale.x == q.x;
    assert (r.y - t.translate.y) / t.scale.y == q.y;
    RoundHalfUpIntegral(q.x);
    RoundHalfUpIntegral(q.y);
  }

  function Abs(v: real): real {
    if v < 0.0 then -v else v
  }

  /** Snaps v to the nearest multiple of a non-zero precision p. */
  function Snap(v: real, p: real): (r: real)
    requires p != 0.0
    ensures IsIntegral(r / p)
    ensures Abs(r - v) <= Abs(p) / 2.0
  {
    var k := RoundHalfUp(v / p);
    SnapBounds(v, p, k);
    k as real * p
  }

  lemma SnapBounds(v: real, p: real, k: int)
    requires p != 0.0
    requires v / p - 0.5 < k as real <= v / p + 0.5
    ensures IsIntegral(k as real * p / p)
    ensures Abs(k as real * p - v) <= Abs(p) / 2.0
  {
    assert k as real * p / p == k as real;
    var d := k as real - v / p;
    assert k as real * p - v == d * p;
    assert -0.5 <= d <= 0.5;
    if p > 0.0 {
      assert -0.5 * p <= d * p <= 0.5 * p;
    } else {
      assert 0.5 * p <= d * p <= -0.5 * p;
    }
  }

  /** Snapping is idempotent: a multiple of p is left where it is. */
  lemma SnapIdempotent(v: real, p: real)
    requires p != 0.0
    ensures Snap(Snap(v, p), p) == Snap(v, p)
  {
  }

  function SnapPos(p: real, q: Pos): (r: Pos)
    requires p != 0.0
  {
    Pos(Snap(q.x, p), Snap(q.y, p))
  }
}

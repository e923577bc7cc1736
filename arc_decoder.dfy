/**
 * The two in-place passes over a topology's arcs: delta decoding with
 * dequantization, and snapping coordinates to a precision. Both overwrite
 * the position arrays of the input topology.
 */
module ArcDecoder {
  import opened Geometry
  import opened Delta

  /** What decoding makes of one quantized arc: the prefix sums, dequantized. */
  function DecodedArc(t: Transform, arc: seq<Pos>): (r: seq<Pos>)
    ensures |r| == |arc|
  {
    seq(|arc|, k requires 0 <= k < |arc| => ToReal(t, PrefixSums(arc)[k]))
  }

  /** What rounding makes of one arc: every coordinate snapped to a multiple of p. */
  function RoundedArc(p: real, arc: seq<Pos>): (r: seq<Pos>)
    requires p != 0.0
    ensures |r| == |arc|
  {
    seq(|arc|, k requires 0 <= k < |arc| => SnapPos(p, arc[k]))
  }

  function QuantizedArc(t: Transform, arc: seq<Pos>): (r: seq<Pos>)
    requires NonDegenerate(t)
    ensures |r| == |arc|
  {
    seq(|arc|, k requires 0 <= k < |arc| => Quantize(t, arc[k]))
  }

  /**
   * The first decoded position is the first pair, dequantized; every later
   * one is the previous grid position plus the delta, dequantized.
   */
  lemma DecodedArcAt(t: Transform, arc: seq<Pos>, k: nat)
    requires k < |arc|
    ensures k == 0 ==> DecodedArc(t, arc)[k] == ToReal(t, arc[0])
    ensures k > 0 ==> DecodedArc(t, arc)[k] == ToReal(t, Add(PrefixSums(arc)[k - 1], arc[k]))
  {
    if k == 0 {
      PrefixSumsFirst(arc);
    } else {
      PrefixSumsStep(arc, k);
    }
  }

  /**
   * Quantizing and delta-encoding a decoded arc gives back the encoded
   * pairs, when they were integers and the scale is not zero.
   */
  lemma DecodedArcRoundTrip(t: Transform, arc: seq<Pos>)
    requires NonDegenerate(t) && AllQuantized(arc)
    ensures DeltaEncode(QuantizedArc(t, DecodedArc(t, arc))) == arc
  {
    var sums := PrefixSums(arc);
    PrefixSumsQuantized(arc);
    forall k | 0 <= k < |arc|
      ensures QuantizedArc(t, DecodedArc(t, arc))[k] == sums[k]
    {
      QuantizeToReal(t, sums[k]);
    }
    assert QuantizedArc(t, DecodedArc(t, arc)) == sums;
    EncodeDecoded(arc);
  }

  /** Rounding an arc twice is the same as rounding it once. */
  lemma RoundedArcIdempotent(p: real, arc: seq<Pos>)
    requires p != 0.0
    ensures RoundedArc(p, RoundedArc(p, arc)) == RoundedArc(p, arc)
  {
    forall k | 0 <= k < |arc|
      ensures RoundedArc(p, RoundedArc(p, arc))[k] == RoundedArc(p, arc)[k]
    {
      SnapIdempotent(arc[k].x, p);
      SnapIdempotent(arc[k].y, p);
    }
  }

  /**
   * Decoding is not idempotent: for some arc and transform a second decode
   * changes the positions, which is why no arc array may be reached twice.
   */
  lemma DecodeTwiceDiffers()
    ensures var t := Transform(Pos(1.0, 1.0), Origin);
      var arc := [Pos(1.0, 1.0), Pos(1.0, 1.0)];
      DecodedArc(t, DecodedArc(t, arc)) != DecodedArc(t, arc)
  {
    var t := Transform(Pos(1.0, 1.0), Origin);
    var arc := [Pos(1.0, 1.0), Pos(1.0, 1.0)];
    DecodedArcAt(t, arc, 0);
    DecodedArcAt(t, arc, 1);
    var once := DecodedArc(t, arc);
    assert once[0] == Pos(1.0, 1.0) && once[1] == Pos(2.0, 2.0);
    DecodedArcAt(t, once, 1);
    assert DecodedArc(t, once)[1] == Pos(3.0, 3.0);
  }

  /** Decodes one arc in place, keeping the running grid position. */
  method DecodeArc(a: array<Pos>, t: Transform)
    modifies a
    ensures a[..] == DecodedArc(t, old(a[..]))
  {
    ghost var encoded := a[..];
    var sum := Origin;
    var i := 0;
    while i < a.Length
      invariant 0 <= i <= a.Length
      invariant sum == Total(encoded[..i])
      invariant forall k :: 0 <= k < i ==> a[k] == ToReal(t, Total(encoded[..k + 1]))
      invariant forall k :: i <= k < a.Length ==> a[k] == encoded[k]
    {
      TotalSnoc(encoded, i);
      sum := Add(sum, a[i]);
      a[i] := ToReal(t, sum);
      i := i + 1;
    }
  }

  /** Snaps every coordinate of one arc in place. */
  method RoundArc(a: array<Pos>, p: real)
    requires p != 0.0
    modifies a
    ensures a[..] == RoundedArc(p, old(a[..]))
  {
    ghost var before := a[..];
    var i := 0;
    while i < a.Length
      invariant 0 <= i <= a.Length
      invariant forall k :: 0 <= k < i ==> a[k] == SnapPos(p, before[k])
      invariant forall k :: i <= k < a.Length ==> a[k] == before[k]
    {
      a[i] := SnapPos(p, a[i]);
      i := i + 1;
    }
  }

  /** No array stands for two arcs, so updating one arc leaves the others alone. */
  predicate Distinct(arcs: seq<array<Pos>>) {
    forall i, j :: 0 <= i < j < |arcs| ==> arcs[i] != arcs[j]
  }

  function Footprint(arcs: seq<array<Pos>>): set<array<Pos>> {
    set a | a in arcs
  }

  /** The positions held by each arc array. */
  function Contents(arcs: seq<array<Pos>>): (r: seq<seq<Pos>>)
    reads Footprint(arcs)
  {
    seq(|arcs|, i requires 0 <= i < |arcs| reads Footprint(arcs) => arcs[i][..])
  }

  /** Decodes every arc in place. */
  method DecodeArcs(arcs: seq<array<Pos>>, t: Transform)
    requires Distinct(arcs)
    modifies Footprint(arcs)
    ensures forall j :: 0 <= j < |arcs| ==> arcs[j][..] == DecodedArc(t, old(arcs[j][..]))
  {
    var i := 0;
    while i < |arcs|
      invariant 0 <= i <= |arcs|
      invariant forall j :: 0 <= j < i ==> arcs[j][..] == DecodedArc(t, old(arcs[j][..]))
      invariant forall j :: i <= j < |arcs| ==> arcs[j][..] == old(arcs[j][..])
    {
      DecodeArc(arcs[i], t);
      i := i + 1;
    }
  }

  /** Snaps every coordinate of every arc in place. */
  method RoundCoords(arcs: seq<array<Pos>>, p: real)
    requires p != 0.0
    requires Distinct(arcs)
    modifies Footprint(arcs)
    ensures forall j :: 0 <= j < |arcs| ==> arcs[j][..] == RoundedArc(p, old(arcs[j][..]))
  {
    var i := 0;
    while i < |arcs|
      invariant 0 <= i <= |arcs|
      invariant forall j :: 0 <= j < i ==> arcs[j][..] == RoundedArc(p, old(arcs[j][..]))
      invariant forall j :: i <= j < |arcs| ==> arcs[j][..] == old(arcs[j][..])
    {
      RoundArc(arcs[i], p);
      i := i + 1;
    }
  }
}

/**
 * Delta encoding of arc positions, as sections 2.1.2 and 2.1.3 of the
 * TopoJSON Format Specification define it for quantized topologies: the
 * first position of an arc is absolute, and every later position is stored
 * as its offset from the one before.
 */
module Delta {
  import opened Geometry

  /** The component-wise sum of a sequence of positions. */
  function Total(s: seq<Pos>): Pos
    decreases |s|
  {
    if s == [] then Origin else Add(Total(s[..|s| - 1]), s[|s| - 1])
  }

  /** Decoding: position k is the sum of the encoded pairs 0..k. */
  function PrefixSums(s: seq<Pos>): (r: seq<Pos>)
    ensures |r| == |s|
  {
    seq(|s|, k requires 0 <= k < |s| => Total(s[..k + 1]))
  }

  /** Encoding: the first position as it is, then each position minus the one before. */
  function DeltaEncode(s: seq<Pos>): (r: seq<Pos>)
    ensures |r| == |s|
  {
    seq(|s|, k requires 0 <= k < |s| => if k == 0 then s[0] else Sub(s[k], s[k - 1]))
  }

  /** Adding one more pair to a prefix adds it to the running total. */
  lemma TotalSnoc(s: seq<Pos>, k: nat)
    requires k < |s|
    ensures Total(s[..k + 1]) == Add(Total(s[..k]), s[k])
  {
    assert s[..k + 1][..k] == s[..k];
  }

  /** The first decoded position is the first encoded pair, taken as absolute. */
  lemma PrefixSumsFirst(s: seq<Pos>)
    requires |s| > 0
    ensures PrefixSums(s)[0] == s[0]
  {
    var one := s[..1];
    assert one[..0] == [] && one[0] == s[0];
    assert Total(one) == Add(Origin, s[0]);
  }

  /** Position k is position k - 1 plus delta k. */
  lemma PrefixSumsStep(s: seq<Pos>, k: nat)
    requires 0 < k < |s|
    ensures PrefixSums(s)[k] == Add(PrefixSums(s)[k - 1], s[k])
  {
    TotalSnoc(s, k);
  }

  /** Delta-encoding decoded positions gives back the encoded pairs. */
  lemma EncodeDecoded(s: seq<Pos>)
    ensures DeltaEncode(PrefixSums(s)) == s
  {
    var d := PrefixSums(s);
    forall k | 0 <= k < |s|
      ensures DeltaEncode(d)[k] == s[k]
    {
      if k == 0 {
        PrefixSumsFirst(s);
      } else {
        PrefixSumsStep(s, k);
      }
    }
  }

  lemma {:induction false} TotalOfDeltas(s: seq<Pos>, k: nat)
    requires k < |s|
    ensures Total(DeltaEncode(s)[..k + 1]) == s[k]
  {
    var e := DeltaEncode(s);
    TotalSnoc(e, k);
    if k == 0 {
      assert e[..0] == [];
    } else {
      TotalOfDeltas(s, k - 1);
    }
  }

  /** Decoding delta-encoded positions gives back the positions. */
  lemma DecodeEncoded(s: seq<Pos>)
    ensures PrefixSums(DeltaEncode(s)) == s
  {
    forall k | 0 <= k < |s|
      ensures PrefixSums(DeltaEncode(s))[k] == s[k]
    {
      TotalOfDeltas(s, k);
    }
  }

  predicate AllQuantized(s: seq<Pos>) {
    forall k :: 0 <= k < |s| ==> IsQuantized(s[k])
  }

  lemma {:induction false} TotalQuantized(s: seq<Pos>)
    requires AllQuantized(s)
    ensures IsQuantized(Total(s))
    decreases |s|
  {
    if s != [] {
      TotalQuantized(s[..|s| - 1]);
      AddQuantized(Total(s[..|s| - 1]), s[|s| - 1]);
    } else {
      IntIsIntegral(0);
    }
  }

  /** Integer deltas decode to integer positions. */
  lemma PrefixSumsQuantized(s: seq<Pos>)
    requires AllQuantized(s)
    ensures AllQuantized(PrefixSums(s))
  {
    forall k | 0 <= k < |s|
      ensures IsQuantized(PrefixSums(s)[k])
    {
      TotalQuantized(s[..k + 1]);
    }
  }
}

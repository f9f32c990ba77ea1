/** Sequence helpers shared by the statement builder: one-level flattening
    (JavaScript's `Array.prototype.flat()`) and its index arithmetic. */
module Sequences {

  /** The inner sequences concatenated in order. */
  function Flat<T>(xss: seq<seq<T>>): seq<T>
  {
    if xss == [] then [] else xss[0] + Flat(xss[1..])
  }

  /** Every inner sequence has exactly `width` elements. */
  ghost predicate Uniform<T>(xss: seq<seq<T>>, width: nat)
  {
    forall i :: 0 <= i < |xss| ==> |xss[i]| == width
  }

  /** Flattening rows of equal width gives `width` elements per row. */
  lemma {:induction false} FlatLength<T>(xss: seq<seq<T>>, width: nat)
    requires Uniform(xss, width)
    ensures |Flat(xss)| == width * |xss|
  {
    if xss != [] {
      FlatLength(xss[1..], width);
      assert width * |xss| == width + width * |xss[1..]|;
    }
  }

  /** Element `k` of row `i` lands at position `width * i + k` of the flattened sequence. */
  lemma {:induction false} FlatAt<T>(xss: seq<seq<T>>, width: nat, i: nat, k: nat)
    requires Uniform(xss, width)
    requires i < |xss| && k < width
    ensures |Flat(xss)| == width * |xss|
    ensures width * i + k < |Flat(xss)|
    ensures Flat(xss)[width * i + k] == xss[i][k]
  {
    FlatLength(xss, width);
    if i > 0 {
      FlatAt(xss[1..], width, i - 1, k);
      assert width * i + k == width + (width * (i - 1) + k);
    }
  }

  /** Flattening distributes over concatenation of the outer sequences. */
  lemma {:induction false} FlatAppend<T>(xss: seq<seq<T>>, yss: seq<seq<T>>)
    ensures Flat(xss + yss) == Flat(xss) + Flat(yss)
  {
    if xss == [] {
      assert xss + yss == yss;
    } else {
      assert (xss + yss)[1..] == xss[1..] + yss;
      FlatAppend(xss[1..], yss);
    }
  }
}

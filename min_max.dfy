/** The running minimum/maximum tracker (DoubleMinMax) that SLOM feeds each
    score into, so that the outlier result can report the observed range. */
module MinMax {

  /** A double that may also be one of the two infinities the tracker
      starts from. */
  datatype ExtReal = NegInf | Finite(v: real) | PosInf

  function RealMin(a: real, b: real): (r: real)
    ensures r <= a && r <= b && (r == a || r == b)
  {
    if a <= b then a else b
  }

  function RealMax(a: real, b: real): (r: real)
    ensures r >= a && r >= b && (r == a || r == b)
  {
    if a >= b then a else b
  }

  /** Math.min(m, v) where m may be infinite. */
  function ExtMin(m: ExtReal, v: real): ExtReal
  {
    match m
    case NegInf => NegInf
    case Finite(x) => Finite(RealMin(x, v))
    case PosInf => Finite(v)
  }

  /** Math.max(m, v) where m may be infinite. */
  function ExtMax(m: ExtReal, v: real): ExtReal
  {
    match m
    case NegInf => Finite(v)
    case Finite(x) => Finite(RealMax(x, v))
    case PosInf => PosInf
  }

  /** The least value of a non-empty sequence. */
  function SeqMin(s: seq<real>): real
    requires s != []
  {
    if |s| == 1 then s[0] else RealMin(SeqMin(s[..|s| - 1]), s[|s| - 1])
  }

  /** The greatest value of a non-empty sequence. */
  function SeqMax(s: seq<real>): real
    requires s != []
  {
    if |s| == 1 then s[0] else RealMax(SeqMax(s[..|s| - 1]), s[|s| - 1])
  }

  /** SeqMin is one of the values and no value is smaller. */
  lemma {:induction false} SeqMinIsLeast(s: seq<real>)
    requires s != []
    ensures SeqMin(s) in s
    ensures forall i :: 0 <= i < |s| ==> SeqMin(s) <= s[i]
  {
    if |s| > 1 {
      var p := s[..|s| - 1];
      SeqMinIsLeast(p);
      assert s == p + [s[|s| - 1]];
    }
  }

  /** SeqMax is one of the values and no value is larger. */
  lemma {:induction false} SeqMaxIsGreatest(s: seq<real>)
    requires s != []
    ensures SeqMax(s) in s
    ensures forall i :: 0 <= i < |s| ==> s[i] <= SeqMax(s)
  {
    if |s| > 1 {
      var p := s[..|s| - 1];
      SeqMaxIsGreatest(p);
      assert s == p + [s[|s| - 1]];
    }
  }

  /** Keeps the smallest and the largest of the values put into it;
      before the first put they are +infinity and -infinity. */
  class DoubleMinMax {
    var min: ExtReal
    var max: ExtReal
    /** The values put so far, in order. */
    ghost var Seen: seq<real>

    ghost predicate Valid()
      reads this
    {
      if Seen == [] then min == PosInf && max == NegInf
      else min == Finite(SeqMin(Seen)) && max == Finite(SeqMax(Seen))
    }

    constructor ()
      ensures Valid() && Seen == []
    {
      min := PosInf;
      max := NegInf;
      Seen := [];
    }

    method Put(v: real)
      requires Valid()
      modifies this
      ensures Valid() && Seen == old(Seen) + [v]
    {
      min := ExtMin(min, v);
      max := ExtMax(max, v);
      Seen := Seen + [v];
      assert Seen[..|Seen| - 1] == old(Seen);
    }
  }
}

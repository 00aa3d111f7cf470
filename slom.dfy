/** SLOM, the spatial local outlier measure of Chawla and Sun, as ELKI's
    SLOM.run computes it: a first pass stores for every object its modified
    distance D~ (the mean distance to its spatial neighbours with the
    farthest one dropped); a second pass, which reads only D~ values, scores
    every object by D~ times an asymmetry factor beta damped by the mean D~
    of its neighbours, and tracks the least and greatest score. */
module Slom {
  import opened MinMax

  /** Database object identifiers. */
  type Id = int

  /** A neighbour oracle: the spatial neighbour set of an object, in
      iteration order. */
  type Neighbours = Id -> seq<Id>

  /** A distance on the non-spatial attributes. */
  type Distance = (Id, Id) -> real

  predicate NoDup(s: seq<Id>)
  {
    forall i, j :: 0 <= i < j < |s| ==> s[i] != s[j]
  }

  ghost predicate NonNegDistance(dist: Distance)
  {
    forall a, b :: dist(a, b) >= 0.0
  }

  /** Every stored D~ value is non-negative. */
  predicate NonNeg(dt: map<Id, real>)
  {
    forall y :: y in dt ==> dt[y] >= 0.0
  }

  function RealAbs(a: real): real
  {
    if a < 0.0 then -a else a
  }

  // ------------------------------------------------------------------
  // Neighbours other than the object itself (both passes skip x).

  /** The neighbours of x other than x itself, in iteration order. */
  function Others(x: Id, ns: seq<Id>): (r: seq<Id>)
    ensures forall y :: y in r <==> y in ns && y != x
  {
    if ns == [] then []
    else
      var last := ns[|ns| - 1];
      assert ns == ns[..|ns| - 1] + [last];
      var rest := Others(x, ns[..|ns| - 1]);
      if last == x then rest else rest + [last]
  }

  /** Others drops exactly the occurrences of x and keeps every other
      entry as often as it is listed. */
  lemma {:induction false} OthersMultiset(x: Id, ns: seq<Id>)
    ensures multiset(Others(x, ns)) == multiset(ns)[x := 0]
  {
    if ns != [] {
      var p, last := ns[..|ns| - 1], ns[|ns| - 1];
      assert ns == p + [last];
      OthersMultiset(x, p);
    }
  }

  /** A list that does not mention x is its own self-free part. */
  lemma {:induction false} OthersOfSelfFree(x: Id, ys: seq<Id>)
    requires x !in ys
    ensures Others(x, ys) == ys
  {
    if ys != [] {
      assert ys == ys[..|ys| - 1] + [ys[|ys| - 1]];
      OthersOfSelfFree(x, ys[..|ys| - 1]);
    }
  }

  // ------------------------------------------------------------------
  // Pass 1: the modified distance D~.

  /** The sum of the distances from x to each of ys. */
  function DistSum(x: Id, ys: seq<Id>, dist: Distance): real
  {
    if ys == [] then 0.0
    else DistSum(x, ys[..|ys| - 1], dist) + dist(x, ys[|ys| - 1])
  }

  /** Math.max folded over the distances from x to ys, starting from 0. */
  function MaxDist(x: Id, ys: seq<Id>, dist: Distance): (r: real)
    ensures r >= 0.0
    ensures forall i :: 0 <= i < |ys| ==> dist(x, ys[i]) <= r
  {
    if ys == [] then 0.0
    else
      var m := MaxDist(x, ys[..|ys| - 1], dist);
      assert forall i :: 0 <= i < |ys| - 1 ==> ys[..|ys| - 1][i] == ys[i];
      RealMax(m, dist(x, ys[|ys| - 1]))
  }

  /** With non-negative distances and at least one neighbour, maxDist is
      the distance to one of them. */
  lemma {:induction false} MaxDistAttained(x: Id, ys: seq<Id>, dist: Distance)
    requires NonNegDistance(dist)
    requires ys != []
    ensures exists i :: 0 <= i < |ys| && dist(x, ys[i]) == MaxDist(x, ys, dist)
  {
    var p, last := ys[..|ys| - 1], ys[|ys| - 1];
    var d := dist(x, last);
    assert d >= 0.0;
    assert MaxDist(x, ys, dist) == RealMax(MaxDist(x, p, dist), d);
    if p == [] || d >= MaxDist(x, p, dist) {
      assert ys[|ys| - 1] == last;
    } else {
      MaxDistAttained(x, p, dist);
      var i :| 0 <= i < |p| && dist(x, p[i]) == MaxDist(x, p, dist);
      assert ys[i] == p[i];
    }
  }

  /** D~(x): over the neighbours other than x, the trimmed mean
      (sum - maxDist) / (cnt - 1) when there are at least two of them,
      and maxDist otherwise. */
  function ModifiedDistance(x: Id, ns: seq<Id>, dist: Distance): real
  {
    var ys := Others(x, ns);
    var cnt := |ys|;
    var sum := DistSum(x, ys, dist);
    var maxDist := MaxDist(x, ys, dist);
    if cnt > 1 then (sum - maxDist) / ((cnt - 1) as real) else maxDist
  }

  lemma {:induction false} DistSumAppend(x: Id, a: seq<Id>, b: seq<Id>, dist: Distance)
    ensures DistSum(x, a + b, dist) == DistSum(x, a, dist) + DistSum(x, b, dist)
  {
    if b == [] {
      assert a + b == a;
    } else {
      var b' := b[..|b| - 1];
      assert (a + b)[..|a + b| - 1] == a + b';
      assert (a + b)[|a + b| - 1] == b[|b| - 1];
      DistSumAppend(x, a, b', dist);
    }
  }

  /** With non-negative distances the sum lies between the largest term
      and cnt times the largest term. */
  lemma {:induction false} DistSumBounds(x: Id, ys: seq<Id>, dist: Distance)
    requires NonNegDistance(dist)
    ensures MaxDist(x, ys, dist) <= DistSum(x, ys, dist)
    ensures DistSum(x, ys, dist) <= (|ys| as real) * MaxDist(x, ys, dist)
  {
    if ys != [] {
      var p, last := ys[..|ys| - 1], ys[|ys| - 1];
      DistSumBounds(x, p, dist);
      var d := dist(x, last);
      assert d >= 0.0;
      var m, m' := MaxDist(x, p, dist), MaxDist(x, ys, dist);
      var sum, sum' := DistSum(x, p, dist), DistSum(x, ys, dist);
      assert m' == RealMax(m, d) && sum' == sum + d;
      assert m' <= sum';
      assert (|p| as real) * m <= (|p| as real) * m';
      assert d <= m';
      assert sum <= (|p| as real) * m;
      assert sum' <= (|p| as real) * m' + m';
    }
  }

  /** Neighbour entries equal to x play no part in D~(x). */
  lemma ModifiedDistanceIgnoresSelf(x: Id, ns: seq<Id>, dist: Distance)
    ensures ModifiedDistance(x, ns, dist) == ModifiedDistance(x, Others(x, ns), dist)
  {
    OthersOfSelfFree(x, Others(x, ns));
  }

  /** With zero or one neighbour besides x, D~(x) is maxDist: 0 without
      neighbours, the single distance with one. */
  lemma ModifiedDistanceFallback(x: Id, ns: seq<Id>, dist: Distance)
    requires NonNegDistance(dist)
    requires |Others(x, ns)| <= 1
    ensures ModifiedDistance(x, ns, dist) == MaxDist(x, Others(x, ns), dist)
    ensures Others(x, ns) == [] ==> ModifiedDistance(x, ns, dist) == 0.0
    ensures |Others(x, ns)| == 1 ==> ModifiedDistance(x, ns, dist) == dist(x, Others(x, ns)[0])
  {
  }

  /** With non-negative distances, 0 <= D~(x) <= maxDist. */
  lemma ModifiedDistanceBounds(x: Id, ns: seq<Id>, dist: Distance)
    requires NonNegDistance(dist)
    ensures 0.0 <= ModifiedDistance(x, ns, dist) <= MaxDist(x, Others(x, ns), dist)
  {
    var ys := Others(x, ns);
    DistSumBounds(x, ys, dist);
    if |ys| > 1 {
      var sum, m, c := DistSum(x, ys, dist), MaxDist(x, ys, dist), (|ys| - 1) as real;
      assert sum - m <= c * m;
      DivAtMost(sum - m, c, m);
    }
  }

  lemma DivAtMost(a: real, c: real, m: real)
    requires c > 0.0 && a <= c * m
    ensures a / c <= m
  {
    assert a / c * c == a;
  }

  /** Removing entry k from a list takes its distance off the sum. */
  lemma DistSumRemove(x: Id, ys: seq<Id>, k: nat, dist: Distance)
    requires k < |ys|
    ensures DistSum(x, ys, dist) == DistSum(x, ys[..k] + ys[k + 1..], dist) + dist(x, ys[k])
  {
    assert ys == ys[..k] + [ys[k]] + ys[k + 1..];
    DistSumAppend(x, ys[..k] + [ys[k]], ys[k + 1..], dist);
    DistSumAppend(x, ys[..k], [ys[k]], dist);
    DistSumAppend(x, ys[..k], ys[k + 1..], dist);
    assert [ys[k]][..0] == [];
  }

  /** D~(x) is the mean of the distances to the neighbours other than x
      after dropping one neighbour at the largest distance, the k-th. */
  lemma TrimmedMean(x: Id, ns: seq<Id>, dist: Distance) returns (k: nat)
    requires NonNegDistance(dist)
    requires |Others(x, ns)| > 1
    ensures k < |Others(x, ns)|
    ensures dist(x, Others(x, ns)[k]) == MaxDist(x, Others(x, ns), dist)
    ensures ModifiedDistance(x, ns, dist) ==
      DistSum(x, Others(x, ns)[..k] + Others(x, ns)[k + 1..], dist) / ((|Others(x, ns)| - 1) as real)
  {
    var ys := Others(x, ns);
    var m := MaxDist(x, ys, dist);
    MaxDistAttained(x, ys, dist);
    k :| 0 <= k < |ys| && dist(x, ys[k]) == m;
    DistSumRemove(x, ys, k, dist);
  }

  /** Two neighbours at distances 2 and 4, and x listed among its own
      neighbours: D~ = (2 + 4 - 4) / (2 - 1) = 2. */
  lemma TrimmedMeanExample()
    ensures ModifiedDistance(0, [1, 0, 2], (a: Id, b: Id) => if a + b == 1 then 2.0 else 4.0) == 2.0
  {
    var dist := (a: Id, b: Id) => if a + b == 1 then 2.0 else 4.0;
    var ns := [1, 0, 2];
    assert ns[..2] == [1, 0] && ns[..2][..1] == [1] && [1][..0] == [];
    assert Others(0, ns) == [1, 2];
    assert [1, 2][..1] == [1];
  }

  /** Pass 1 for one object: accumulate sum, cnt and maxDist over the
      neighbours other than id, then apply the trimmed mean or the
      fallback. */
  method ModifiedDistanceOf(id: Id, neighbors: seq<Id>, dist: Distance) returns (dTilde: real)
    ensures dTilde == ModifiedDistance(id, neighbors, dist)
  {
    var sum, maxDist, cnt := 0.0, 0.0, 0;
    var j := 0;
    while j < |neighbors|
      invariant 0 <= j <= |neighbors|
      invariant cnt == |Others(id, neighbors[..j])|
      invariant sum == DistSum(id, Others(id, neighbors[..j]), dist)
      invariant maxDist == MaxDist(id, Others(id, neighbors[..j]), dist)
    {
      var neighbor := neighbors[j];
      assert neighbors[..j + 1][..j] == neighbors[..j];
      if id != neighbor {
        var d := dist(id, neighbor);
        ghost var ys := Others(id, neighbors[..j]);
        assert (ys + [neighbor])[..|ys|] == ys;
        sum := sum + d;
        cnt := cnt + 1;
        maxDist := RealMax(maxDist, d);
      }
      j := j + 1;
    }
    assert neighbors[..j] == neighbors;
    if cnt > 1 {
      dTilde := (sum - maxDist) / ((cnt - 1) as real);
    } else {
      dTilde := maxDist;
    }
  }

  /** Pass 1: the D~ store for every object of the relation. */
  method ModifiedDistances(ids: seq<Id>, nb: Neighbours, dist: Distance) returns (dt: map<Id, real>)
    ensures dt.Keys == set id | id in ids
    ensures forall id :: id in ids ==> dt[id] == ModifiedDistance(id, nb(id), dist)
  {
    dt := map[];
    var i := 0;
    while i < |ids|
      invariant 0 <= i <= |ids|
      invariant dt.Keys == set id | id in ids[..i]
      invariant forall id :: id in ids[..i] ==> dt[id] == ModifiedDistance(id, nb(id), dist)
    {
      var id := ids[i];
      var dTilde := ModifiedDistanceOf(id, nb(id), dist);
      dt := dt[id := dTilde];
      assert ids[..i + 1] == ids[..i] + [id];
      i := i + 1;
    }
    assert ids[..i] == ids;
  }

  // ------------------------------------------------------------------
  // Pass 2: the SLOM score, from D~ values only.

  /** The sum of the stored D~ values of ys. */
  function DtSum(ys: seq<Id>, dt: map<Id, real>): (r: real)
    requires forall y :: y in ys ==> y in dt
    ensures NonNeg(dt) ==> r >= 0.0
  {
    if ys == [] then 0.0
    else
      var last := ys[|ys| - 1];
      assert ys == ys[..|ys| - 1] + [last];
      assert last in dt;
      DtSum(ys[..|ys| - 1], dt) + dt[last]
  }

  /** The vote of one D~ value against the average: +1 above, -1 below. */
  function Sign(v: real, avg: real): int
  {
    if v > avg then 1 else if v < avg then -1 else 0
  }

  /** The sum of the votes of ys, in iteration order (entries are not
      de-duplicated). */
  function SignSum(ys: seq<Id>, dt: map<Id, real>, avg: real): (r: int)
    requires forall y :: y in ys ==> y in dt
    ensures -|ys| <= r <= |ys|
  {
    if ys == [] then 0
    else
      var last := ys[|ys| - 1];
      assert ys == ys[..|ys| - 1] + [last];
      assert last in dt;
      SignSum(ys[..|ys| - 1], dt, avg) + Sign(dt[last], avg)
  }

  /** The beta vote count before taking its absolute value: the votes of
      every listed neighbour, plus that of x when x is not listed. */
  function Votes(x: Id, ns: seq<Id>, dt: map<Id, real>, avg: real): int
    requires x in dt && forall y :: y in ns ==> y in dt
  {
    SignSum(ns, dt, avg) + if x in ns then 0 else Sign(dt[x], avg)
  }

  /** avg: the mean D~ of the neighbours other than x. */
  function NeighbourMean(x: Id, ns: seq<Id>, dt: map<Id, real>): (r: real)
    requires forall y :: y in ns ==> y in dt
    requires Others(x, ns) != []
    ensures NonNeg(dt) ==> r >= 0.0
  {
    DtSum(Others(x, ns), dt) / (|Others(x, ns)| as real)
  }

  /** avgPlus: the mean D~ over the neighbours other than x together with
      x itself. */
  function NeighbourMeanPlus(x: Id, ns: seq<Id>, dt: map<Id, real>): real
    requires x in dt && forall y :: y in ns ==> y in dt
  {
    (DtSum(Others(x, ns), dt) + dt[x]) / ((|Others(x, ns)| + 1) as real)
  }

  /** beta before damping: |votes| floored at 1 and divided by cnt - 1 with
      two or more neighbours; 1 with a single neighbour, where the published
      formula would divide by zero. */
  function Beta(cnt: int, votes: int): (b: real)
    requires cnt >= 1
    ensures b > 0.0
  {
    if cnt > 1 then RealMax(RealAbs(votes as real), 1.0) / ((cnt - 1) as real) else 1.0
  }

  /** beta damped by 1 + avg, times D~(x). */
  function Damped(beta: real, avg: real, dTilde: real): (r: real)
    requires beta >= 0.0 && avg >= 0.0 && dTilde >= 0.0
    ensures r >= 0.0
  {
    var damped := beta / (1.0 + avg);
    assert damped >= 0.0;
    damped * dTilde
  }

  /** The SLOM score of x from the D~ store: 0 without neighbours besides x;
      otherwise beta / (1 + avg) * D~(x). */
  function Score(x: Id, ns: seq<Id>, dt: map<Id, real>): (r: real)
    requires NonNeg(dt)
    requires x in dt && forall y :: y in ns ==> y in dt
    ensures r >= 0.0
    ensures Others(x, ns) == [] ==> r == 0.0
  {
    var cnt := |Others(x, ns)|;
    if cnt > 0 then
      var avg := NeighbourMean(x, ns, dt);
      Damped(Beta(cnt, Votes(x, ns, dt, NeighbourMeanPlus(x, ns, dt))), avg, dt[x])
    else
      0.0
  }

  /** The members of a list, as a set. */
  function Elems(s: seq<Id>): set<Id>
  {
    set y | y in s
  }

  /** N+(x): the neighbour set together with x itself. */
  function NPlus(x: Id, ns: seq<Id>): set<Id>
  {
    Elems(ns) + {x}
  }

  /** The members of s whose D~ lies strictly above avg. */
  function Above(s: set<Id>, dt: map<Id, real>, avg: real): set<Id>
  {
    set y | y in s && y in dt && dt[y] > avg
  }

  /** The members of s whose D~ lies strictly below avg. */
  function Below(s: set<Id>, dt: map<Id, real>, avg: real): set<Id>
  {
    set y | y in s && y in dt && dt[y] < avg
  }

  /** Dropping the last entry of a list without repetitions leaves a list
      without repetitions that does not mention that entry. */
  lemma NoDupPrefix(ns: seq<Id>)
    requires NoDup(ns) && ns != []
    ensures NoDup(ns[..|ns| - 1]) && ns[|ns| - 1] !in ns[..|ns| - 1]
  {
    var p := ns[..|ns| - 1];
    assert forall i :: 0 <= i < |p| ==> p[i] == ns[i];
  }

  /** Over a list without repetitions, the self-free part is one shorter
      exactly when x is listed. */
  lemma {:induction false} OthersLength(x: Id, ns: seq<Id>)
    requires NoDup(ns)
    ensures |Others(x, ns)| == if x in ns then |ns| - 1 else |ns|
  {
    if ns != [] {
      var p, last := ns[..|ns| - 1], ns[|ns| - 1];
      assert ns == p + [last];
      NoDupPrefix(ns);
      OthersLength(x, p);
    }
  }

  /** Over a list without repetitions, the votes are those of the entries
      other than x, plus x's own vote when x is listed. */
  lemma {:induction false} SignSumSplit(x: Id, ns: seq<Id>, dt: map<Id, real>, avg: real)
    requires NoDup(ns)
    requires x in dt && forall y :: y in ns ==> y in dt
    ensures SignSum(ns, dt, avg) ==
      SignSum(Others(x, ns), dt, avg) + (if x in ns then Sign(dt[x], avg) else 0)
  {
    if ns != [] {
      var p, last := ns[..|ns| - 1], ns[|ns| - 1];
      assert ns == p + [last];
      NoDupPrefix(ns);
      SignSumSplit(x, p, dt, avg);
      var rest := Others(x, p);
      assert SignSum(ns, dt, avg) == SignSum(p, dt, avg) + Sign(dt[last], avg);
      if last == x {
        assert Others(x, ns) == rest;
      } else {
        assert Others(x, ns) == rest + [last];
        assert (rest + [last])[..|rest|] == rest;
        assert SignSum(rest + [last], dt, avg) == SignSum(rest, dt, avg) + Sign(dt[last], avg);
        assert (x in ns) == (x in p);
      }
    }
  }

  /** The object is voted exactly once, whether or not it is listed among
      its own neighbours; hence |votes| <= cnt + 1. */
  lemma SelfVotedOnce(x: Id, ns: seq<Id>, dt: map<Id, real>, avg: real)
    requires NoDup(ns)
    requires x in dt && forall y :: y in ns ==> y in dt
    ensures Votes(x, ns, dt, avg) == SignSum(Others(x, ns), dt, avg) + Sign(dt[x], avg)
    ensures -(|Others(x, ns)| + 1) <= Votes(x, ns, dt, avg) <= |Others(x, ns)| + 1
  {
    SignSumSplit(x, ns, dt, avg);
  }

  lemma {:induction false} NoDupSetSize(s: seq<Id>)
    requires NoDup(s)
    ensures |Elems(s)| == |s|
  {
    if s != [] {
      var p, last := s[..|s| - 1], s[|s| - 1];
      assert s == p + [last];
      NoDupPrefix(s);
      NoDupSetSize(p);
      assert Elems(s) == Elems(p) + {last};
    }
  }

  /** Over a list without repetitions, the vote sum is the number of members
      above the average minus the number below it. */
  lemma {:induction false} SignSumCounts(s: seq<Id>, dt: map<Id, real>, avg: real)
    requires NoDup(s)
    requires forall y :: y in s ==> y in dt
    ensures SignSum(s, dt, avg) == |Above(Elems(s), dt, avg)| - |Below(Elems(s), dt, avg)|
  {
    if s != [] {
      var p, last := s[..|s| - 1], s[|s| - 1];
      assert s == p + [last];
      NoDupPrefix(s);
      SignSumCounts(p, dt, avg);
      assert Elems(s) == Elems(p) + {last};
      assert last !in Elems(p);
      assert SignSum(s, dt, avg) == SignSum(p, dt, avg) + Sign(dt[last], avg);
      AboveBelowInsert(Elems(p), last, dt, avg);
    }
  }

  /** Adding one new member to a set adds it to exactly the side of the
      average its D~ lies on. */
  lemma AboveBelowInsert(sp: set<Id>, last: Id, dt: map<Id, real>, avg: real)
    requires last !in sp && last in dt
    ensures |Above(sp + {last}, dt, avg)| - |Below(sp + {last}, dt, avg)| ==
      |Above(sp, dt, avg)| - |Below(sp, dt, avg)| + Sign(dt[last], avg)
  {
    var a, b := Above(sp, dt, avg), Below(sp, dt, avg);
    assert last !in a && last !in b;
    if dt[last] > avg {
      assert Above(sp + {last}, dt, avg) == a + {last};
      assert Below(sp + {last}, dt, avg) == b;
    } else if dt[last] < avg {
      assert Above(sp + {last}, dt, avg) == a;
      assert Below(sp + {last}, dt, avg) == b + {last};
    } else {
      assert Above(sp + {last}, dt, avg) == a;
      assert Below(sp + {last}, dt, avg) == b;
    }
  }

  /** The vote count of the loop is the paper's: over N+(x), the members
      above the average minus those below, and |N+(x)| = cnt + 1. */
  lemma VotesCountNPlus(x: Id, ns: seq<Id>, dt: map<Id, real>, avg: real)
    requires NoDup(ns)
    requires x in dt && forall y :: y in ns ==> y in dt
    ensures Votes(x, ns, dt, avg) == |Above(NPlus(x, ns), dt, avg)| - |Below(NPlus(x, ns), dt, avg)|
    ensures |NPlus(x, ns)| == |Others(x, ns)| + 1
  {
    var full := if x in ns then ns else ns + [x];
    if x !in ns {
      assert full[..|ns|] == ns;
      assert forall i :: 0 <= i < |ns| ==> full[i] == ns[i] && full[i] != x;
    }
    assert NoDup(full);
    assert Elems(full) == NPlus(x, ns);
    assert Votes(x, ns, dt, avg) == SignSum(full, dt, avg);
    SignSumCounts(full, dt, avg);
    NoDupSetSize(full);
    OthersLength(x, ns);
  }

  /** beta by case: with a single neighbour beta is 1; with more it is
      max(|above - below| over N+(x), 1) / (cnt - 1); either way the score
      is beta / (1 + avg) * D~(x), with avg >= 0 so that 1 + avg >= 1. */
  lemma ScoreByCase(x: Id, ns: seq<Id>, dt: map<Id, real>)
    requires NoDup(ns) && NonNeg(dt)
    requires x in dt && forall y :: y in ns ==> y in dt
    requires Others(x, ns) != []
    ensures NeighbourMean(x, ns, dt) >= 0.0
    ensures |Others(x, ns)| == 1 ==>
      Score(x, ns, dt) == Damped(1.0, NeighbourMean(x, ns, dt), dt[x])
    ensures |Others(x, ns)| > 1 ==>
      var avgPlus := NeighbourMeanPlus(x, ns, dt);
      var v := |Above(NPlus(x, ns), dt, avgPlus)| - |Below(NPlus(x, ns), dt, avgPlus)|;
      Score(x, ns, dt) ==
        Damped(RealMax(RealAbs(v as real), 1.0) / ((|Others(x, ns)| - 1) as real), NeighbourMean(x, ns, dt), dt[x])
  {
    VotesCountNPlus(x, ns, dt, NeighbourMeanPlus(x, ns, dt));
  }

  lemma {:induction false} DtSumConstant(ys: seq<Id>, dt: map<Id, real>, c: real)
    requires forall y :: y in ys ==> y in dt && dt[y] == c
    ensures DtSum(ys, dt) == (|ys| as real) * c
  {
    if ys != [] {
      DtSumConstant(ys[..|ys| - 1], dt, c);
    }
  }

  lemma {:induction false} SignSumAtValue(ys: seq<Id>, dt: map<Id, real>, c: real)
    requires forall y :: y in ys ==> y in dt && dt[y] == c
    ensures SignSum(ys, dt, c) == 0
  {
    if ys != [] {
      SignSumAtValue(ys[..|ys| - 1], dt, c);
    }
  }

  /** When x and all its neighbours share one D~ value c, both averages
      are c ... */
  lemma UniformMeans(x: Id, ns: seq<Id>, dt: map<Id, real>, c: real)
    requires NonNeg(dt)
    requires x in dt && dt[x] == c
    requires forall y :: y in ns ==> y in dt && dt[y] == c
    requires Others(x, ns) != []
    ensures NeighbourMean(x, ns, dt) == c && NeighbourMeanPlus(x, ns, dt) == c
  {
    ConstantMeans(Others(x, ns), dt, c);
  }

  /** ... and every vote is 0. */
  lemma UniformVotes(x: Id, ns: seq<Id>, dt: map<Id, real>, c: real)
    requires x in dt && dt[x] == c
    requires forall y :: y in ns ==> y in dt && dt[y] == c
    ensures Votes(x, ns, dt, c) == 0
  {
    SignSumAtValue(ns, dt, c);
  }

  /** So the floor of 1 applies: beta is 1 / (cnt - 1), or 1 with a single
      neighbour. */
  lemma UniformNeighbourhood(x: Id, ns: seq<Id>, dt: map<Id, real>, c: real)
    requires NonNeg(dt)
    requires x in dt && dt[x] == c
    requires forall y :: y in ns ==> y in dt && dt[y] == c
    requires Others(x, ns) != []
    ensures |Others(x, ns)| == 1 ==> Score(x, ns, dt) == Damped(1.0, c, c)
    ensures |Others(x, ns)| > 1 ==>
      Score(x, ns, dt) == Damped(1.0 / ((|Others(x, ns)| - 1) as real), c, c)
  {
    UniformMeans(x, ns, dt, c);
    UniformVotes(x, ns, dt, c);
  }

  lemma ConstantMeans(ys: seq<Id>, dt: map<Id, real>, c: real)
    requires ys != []
    requires forall y :: y in ys ==> y in dt && dt[y] == c
    ensures DtSum(ys, dt) / (|ys| as real) == c
    ensures (DtSum(ys, dt) + c) / ((|ys| + 1) as real) == c
  {
    var n := |ys| as real;
    DtSumConstant(ys, dt, c);
    assert n * c + c == (n + 1.0) * c;
  }

  /** The first loop of pass 2 for one object: the sum of D~ over its
      neighbours other than itself, and their number. */
  method NeighbourSum(id: Id, neighbors: seq<Id>, dt: map<Id, real>) returns (sum: real, cnt: nat)
    requires forall y :: y in neighbors ==> y in dt
    ensures cnt == |Others(id, neighbors)|
    ensures sum == DtSum(Others(id, neighbors), dt)
  {
    sum, cnt := 0.0, 0;
    var j := 0;
    while j < |neighbors|
      invariant 0 <= j <= |neighbors|
      invariant cnt == |Others(id, neighbors[..j])|
      invariant sum == DtSum(Others(id, neighbors[..j]), dt)
    {
      var neighbor := neighbors[j];
      assert neighbors[..j + 1][..j] == neighbors[..j];
      if neighbor != id {
        ghost var ys := Others(id, neighbors[..j]);
        assert (ys + [neighbor])[..|ys|] == ys;
        sum := sum + dt[neighbor];
        cnt := cnt + 1;
      }
      j := j + 1;
    }
    assert neighbors[..j] == neighbors;
  }

  /** The vote loop of pass 2: +1 for each neighbour above the average,
      -1 for each one below it, the object itself included when it is not
      among its neighbours. */
  method VoteCount(id: Id, neighbors: seq<Id>, dt: map<Id, real>, avgPlus: real) returns (beta: real)
    requires id in dt && forall y :: y in neighbors ==> y in dt
    ensures beta == Votes(id, neighbors, dt, avgPlus) as real
  {
    beta := 0.0;
    var j := 0;
    while j < |neighbors|
      invariant 0 <= j <= |neighbors|
      invariant beta == SignSum(neighbors[..j], dt, avgPlus) as real
    {
      assert neighbors[..j + 1][..j] == neighbors[..j];
      var neighbor := neighbors[j];
      assert neighbor in neighbors;
      var dist := dt[neighbor];
      if dist > avgPlus {
        beta := beta + 1.0;
      } else if dist < avgPlus {
        beta := beta - 1.0;
      }
      j := j + 1;
    }
    assert neighbors[..j] == neighbors;
    if id !in neighbors {
      var dist := dt[id];
      if dist > avgPlus {
        beta := beta + 1.0;
      } else if dist < avgPlus {
        beta := beta - 1.0;
      }
    }
  }

  /** The beta rule on the vote count: its absolute value, floored at 1
      and divided by cnt - 1, or 1 with a single neighbour. */
  method BetaOf(cnt: nat, votes: real, ghost v: int) returns (beta: real)
    requires cnt >= 1 && votes == v as real
    ensures beta == Beta(cnt, v)
  {
    beta := RealAbs(votes);
    if cnt > 1 {
      beta := RealMax(beta, 1.0) / ((cnt - 1) as real);
    } else {
      beta := 1.0;
    }
  }

  /** Pass 2 for one object: the neighbour sum and count, the two averages,
      the signed votes over the neighbours and the object itself, the beta
      rule and the damping. */
  method ScoreOf(id: Id, neighbors: seq<Id>, dt: map<Id, real>) returns (slom: real)
    requires NonNeg(dt)
    requires id in dt && forall y :: y in neighbors ==> y in dt
    ensures slom == Score(id, neighbors, dt)
  {
    var sum, cnt := NeighbourSum(id, neighbors, dt);
    if cnt > 0 {
      var avgPlus := (sum + dt[id]) / ((cnt + 1) as real);
      var avg := sum / (cnt as real);
      var votes := VoteCount(id, neighbors, dt, avgPlus);
      var beta := BetaOf(cnt, votes, Votes(id, neighbors, dt, avgPlus));
      beta := beta / (1.0 + avg);
      slom := beta * dt[id];
    } else {
      slom := 0.0;
    }
  }

  /** The scores of the objects in iteration order: the values pass 2 puts
      into the minimum/maximum tracker. */
  ghost function ScoreSeq(ids: seq<Id>, nb: Neighbours, dt: map<Id, real>): seq<real>
    requires NonNeg(dt)
    requires forall id :: id in ids ==> id in dt
    requires forall id, y :: id in ids && y in nb(id) ==> y in dt
  {
    if ids == [] then []
    else
      var p := ids[..|ids| - 1];
      var last := ids[|ids| - 1];
      assert ids == p + [last];
      ScoreSeq(p, nb, dt) + [Score(last, nb(last), dt)]
  }

  /** The score store after pass 2 has visited the objects of ids in order. */
  ghost function ScoreMap(ids: seq<Id>, nb: Neighbours, dt: map<Id, real>): map<Id, real>
    requires NonNeg(dt)
    requires forall id :: id in ids ==> id in dt
    requires forall id, y :: id in ids && y in nb(id) ==> y in dt
  {
    if ids == [] then map[]
    else
      var p := ids[..|ids| - 1];
      var last := ids[|ids| - 1];
      assert ids == p + [last];
      ScoreMap(p, nb, dt)[last := Score(last, nb(last), dt)]
  }

  lemma {:induction false} ScoreSeqFacts(ids: seq<Id>, nb: Neighbours, dt: map<Id, real>)
    requires NonNeg(dt)
    requires forall id :: id in ids ==> id in dt
    requires forall id, y :: id in ids && y in nb(id) ==> y in dt
    ensures |ScoreSeq(ids, nb, dt)| == |ids|
    ensures forall k :: 0 <= k < |ids| ==> ScoreSeq(ids, nb, dt)[k] == Score(ids[k], nb(ids[k]), dt)
  {
    if ids != [] {
      var p := ids[..|ids| - 1];
      assert ids == p + [ids[|ids| - 1]];
      ScoreSeqFacts(p, nb, dt);
    }
  }

  lemma {:induction false} ScoreMapFacts(ids: seq<Id>, nb: Neighbours, dt: map<Id, real>)
    requires NonNeg(dt)
    requires forall id :: id in ids ==> id in dt
    requires forall id, y :: id in ids && y in nb(id) ==> y in dt
    ensures ScoreMap(ids, nb, dt).Keys == set id | id in ids
    ensures forall id :: id in ids ==> ScoreMap(ids, nb, dt)[id] == Score(id, nb(id), dt)
  {
    if ids != [] {
      var p := ids[..|ids| - 1];
      var last := ids[|ids| - 1];
      assert ids == p + [last];
      ScoreMapFacts(p, nb, dt);
    }
  }

  /** The score sequence read back against the score store: the least and
      greatest scores are scores of some object and bound all others. */
  lemma SeqExtremes(ids: seq<Id>, nb: Neighbours, dt: map<Id, real>)
    requires NonNeg(dt)
    requires forall id :: id in ids ==> id in dt
    requires forall id, y :: id in ids && y in nb(id) ==> y in dt
    ensures ids != [] ==>
      var s := ScoreSeq(ids, nb, dt);
      var sloms := ScoreMap(ids, nb, dt);
      && s != []
      && (exists id :: id in ids && id in sloms && sloms[id] == SeqMin(s))
      && (exists id :: id in ids && id in sloms && sloms[id] == SeqMax(s))
      && forall id :: id in ids ==> id in sloms && SeqMin(s) <= sloms[id] <= SeqMax(s)
  {
    ScoreMapFacts(ids, nb, dt);
    ScoreSeqFacts(ids, nb, dt);
    var s := ScoreSeq(ids, nb, dt);
    var sloms := ScoreMap(ids, nb, dt);
    if ids != [] {
      SeqMinIsLeast(s);
      SeqMaxIsGreatest(s);
      forall id | id in ids
        ensures SeqMin(s) <= sloms[id] <= SeqMax(s)
      {
        var k :| 0 <= k < |ids| && ids[k] == id;
        assert s[k] == sloms[id];
      }
      var kl :| 0 <= kl < |s| && s[kl] == SeqMin(s);
      var kh :| 0 <= kh < |s| && s[kh] == SeqMax(s);
      assert ids[kl] in ids && ids[kh] in ids;
    }
  }

  /** Pass 2: the SLOM score store for every object of the relation and the
      least and greatest score, from the D~ store alone. */
  method Scores(ids: seq<Id>, nb: Neighbours, dt: map<Id, real>)
    returns (sloms: map<Id, real>, lo: ExtReal, hi: ExtReal)
    requires NonNeg(dt)
    requires forall id :: id in ids ==> id in dt
    requires forall id, y :: id in ids && y in nb(id) ==> y in dt
    ensures sloms.Keys == set id | id in ids
    ensures forall id :: id in ids ==> sloms[id] == Score(id, nb(id), dt)
    ensures ids == [] ==> lo == PosInf && hi == NegInf
    ensures ids != [] ==>
      && lo.Finite? && hi.Finite?
      && (exists id :: id in ids && sloms[id] == lo.v)
      && (exists id :: id in ids && sloms[id] == hi.v)
      && forall id :: id in ids ==> lo.v <= sloms[id] <= hi.v
  {
    var minmax := new DoubleMinMax();
    sloms := map[];
    var i := 0;
    while i < |ids|
      invariant 0 <= i <= |ids|
      invariant minmax.Valid() && minmax.Seen == ScoreSeq(ids[..i], nb, dt)
      invariant sloms == ScoreMap(ids[..i], nb, dt)
    {
      var id := ids[i];
      var slom := ScoreOf(id, nb(id), dt);
      sloms := sloms[id := slom];
      minmax.Put(slom);
      assert ids[..i + 1][..i] == ids[..i];
      i := i + 1;
    }
    assert ids[..i] == ids;
    ScoreMapFacts(ids, nb, dt);
    SeqExtremes(ids, nb, dt);
    lo, hi := minmax.min, minmax.max;
  }

  /** SLOM.run: pass 1 fills the D~ store for the whole relation before
      pass 2 reads it. Every object gets one non-negative score, and the
      reported minimum and maximum are the least and greatest of them. */
  method Run(ids: seq<Id>, nb: Neighbours, dist: Distance)
    returns (dt: map<Id, real>, sloms: map<Id, real>, lo: ExtReal, hi: ExtReal)
    requires NonNegDistance(dist)
    requires forall id, y :: id in ids && y in nb(id) ==> y in ids
    ensures dt.Keys == set id | id in ids
    ensures forall id :: id in ids ==> dt[id] == ModifiedDistance(id, nb(id), dist)
    ensures NonNeg(dt)
    ensures sloms.Keys == set id | id in ids
    ensures forall id :: id in ids ==> sloms[id] == Score(id, nb(id), dt) && sloms[id] >= 0.0
    ensures ids == [] ==> lo == PosInf && hi == NegInf
    ensures ids != [] ==>
      && lo.Finite? && hi.Finite? && 0.0 <= lo.v
      && (exists id :: id in ids && sloms[id] == lo.v)
      && (exists id :: id in ids && sloms[id] == hi.v)
      && forall id :: id in ids ==> lo.v <= sloms[id] <= hi.v
  {
    dt := ModifiedDistances(ids, nb, dist);
    forall y | y in dt
      ensures dt[y] >= 0.0
    {
      assert y in ids;
      ModifiedDistanceBounds(y, nb(y), dist);
    }
    sloms, lo, hi := Scores(ids, nb, dt);
  }
}

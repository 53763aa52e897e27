/** Small vocabulary shared by every model in the project. */
module Prelude {

  datatype Option<+T> = None | Some(value: T)

  function Max(a: int, b: int): int { if a < b then b else a }

  function Min(a: int, b: int): int { if a < b then a else b }

  function Excess(a: nat, b: nat): nat { if a > b then a - b else 0 }

  /** The keys of a partial map can be told apart by their values. */
  ghost predicate Injective<K, V>(m: map<K, V>) {
    forall a, b :: a in m && b in m && m[a] == m[b] ==> a == b
  }

  /** Keeps the first of equal entries, as a dictionary built from keys does. */
  function Distinct<T(==)>(xs: seq<T>): seq<T> {
    if xs == [] then []
    else
      var before := Distinct(xs[..|xs| - 1]);
      if xs[|xs| - 1] in before then before else before + [xs[|xs| - 1]]
  }

  method KeepDistinct<T(==)>(xs: seq<T>) returns (kept: seq<T>)
    ensures kept == Distinct(xs)
  {
    kept := [];
    for i := 0 to |xs|
      invariant kept == Distinct(xs[..i])
    {
      assert xs[..i + 1][..i] == xs[..i];
      if xs[i] !in kept { kept := kept + [xs[i]]; }
    }
    assert xs[..|xs|] == xs;
  }

  lemma {:induction false} DistinctKeepsEach<T>(xs: seq<T>)
    ensures forall x :: x in Distinct(xs) <==> x in xs
    ensures forall i, j :: 0 <= i < j < |Distinct(xs)| ==> Distinct(xs)[i] != Distinct(xs)[j]
  {
    if xs != [] {
      DistinctKeepsEach(xs[..|xs| - 1]);
      assert forall x :: x in xs <==> x in xs[..|xs| - 1] || x == xs[|xs| - 1];
    }
  }

  /** Some x stands before the first y. */
  ghost predicate ComesFirst<T>(xs: seq<T>, x: T, y: T) { exists n :: 0 <= n < |xs| && xs[n] == x && y !in xs[..n + 1] }

  lemma StillComesFirst<T>(xs: seq<T>, x: T, y: T)
    requires xs != [] && (ComesFirst(xs[..|xs| - 1], x, y) || (x in xs[..|xs| - 1] && y !in xs[..|xs| - 1]))
    ensures ComesFirst(xs, x, y)
  {
    var front := xs[..|xs| - 1];
    var n :| 0 <= n < |front| && front[n] == x && y !in front[..n + 1];
    assert xs[n] == x && xs[..n + 1] == front[..n + 1];
  }

  lemma InJoinComesFirst<T>(xs: seq<T>, ys: seq<T>, x: T, y: T)
    requires ComesFirst(xs + ys, x, y)
    ensures ComesFirst(xs, x, y) || (y !in xs && ComesFirst(ys, x, y))
  {
    var n :| 0 <= n < |xs + ys| && (xs + ys)[n] == x && y !in (xs + ys)[..n + 1];
    if n < |xs| {
      assert (xs + ys)[..n + 1] == xs[..n + 1] && xs[n] == x;
    } else {
      assert (xs + ys)[..n + 1] == xs + ys[..n - |xs| + 1] && ys[n - |xs|] == x;
    }
  }

  lemma DistinctKeeps<T>(xs: seq<T>, x: T)
    ensures x in Distinct(xs) <==> x in xs
  {
    DistinctKeepsEach(xs);
  }

  /** What is kept stands in the order of first occurrence. */
  lemma {:induction false} DistinctKeepsOrder<T>(xs: seq<T>)
    ensures forall i, j :: 0 <= i < j < |Distinct(xs)| ==> ComesFirst(xs, Distinct(xs)[i], Distinct(xs)[j])
  {
    if xs != [] {
      var front := xs[..|xs| - 1];
      DistinctKeepsOrder(front);
      DistinctKeepsEach(front);
      forall i, j | 0 <= i < j < |Distinct(xs)| ensures ComesFirst(xs, Distinct(xs)[i], Distinct(xs)[j]) {
        var x, y := Distinct(xs)[i], Distinct(xs)[j];
        assert x in Distinct(front);
        DistinctKeeps(front, x);
        DistinctKeeps(front, y);
        assert x in front;
        assert j < |Distinct(front)| || y !in front;
        StillComesFirst(xs, x, y);
      }
    }
  }

  predicate Apart<T(==)>(xs: seq<T>) { forall i, j :: 0 <= i < j < |xs| ==> xs[i] != xs[j] }

  function Elements<T(==)>(xs: seq<T>): set<T> { set x | x in xs }

  lemma {:induction false} ApartCount<T>(xs: seq<T>)
    requires Apart(xs)
    ensures |Elements(xs)| == |xs|
  {
    if xs != [] {
      var front, last := xs[..|xs| - 1], xs[|xs| - 1];
      ApartCount(front);
      assert Elements(xs) == Elements(front) + {last};
      assert last !in Elements(front);
    }
  }

  lemma SubsetOfSize<T>(a: set<T>, b: set<T>)
    requires a <= b && |a| == |b|
    ensures a == b
  {
    assert b == a + (b - a);
    assert |b| == |a| + |b - a|;
  }
}

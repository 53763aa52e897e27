/** When a diff tells the whole story: exactly when equal keys of the old state carry equal lastmods. */
module DiffExactness {
  import opened Prelude
  import opened Entries
  import opened Diff

  /** Two current states with one diff against `previous` are the same state, up to raw URLs. */
  ghost predicate DiffDetermines(previous: seq<Entry>) {
    forall a, b :: DiffOf(previous, a) == DiffOf(previous, b) ==> Ids(a) == Ids(b)
  }

  ghost predicate UniformKeys(es: seq<Entry>) {
    forall i, j :: 0 <= i < |es| && 0 <= j < |es| && KeyOf(es[i]) == KeyOf(es[j]) ==> es[i].lastmod == es[j].lastmod
  }

  ghost function ModsOf(es: seq<Entry>): Key -> Option<Text> {
    k => if exists i :: 0 <= i < |es| && KeyOf(es[i]) == k
         then var i :| 0 <= i < |es| && KeyOf(es[i]) == k; es[i].lastmod
         else None
  }

  lemma UniformKeysAreUniform(es: seq<Entry>)
    requires UniformKeys(es)
    ensures Uniform(es, ModsOf(es))
  {
    forall e | e in es ensures e.lastmod == ModsOf(es)(KeyOf(e)) {
      var i :| 0 <= i < |es| && es[i] == e;
      assert KeyOf(es[i]) == KeyOf(e);
    }
  }

  lemma {:induction false} MergeSelf(es: seq<Entry>)
    ensures Merge(es, es) == NOTHING
  {
    if es != [] { MergeSelf(es[1..]); }
  }

  lemma {:induction false} MergeUpdate(es: seq<Entry>, q: nat, e: Entry)
    requires q < |es| && KeyOf(e) == KeyOf(es[q]) && e.lastmod != es[q].lastmod
    ensures Merge(es, es[q := e]) == DiffResult([], [e], [])
  {
    if q == 0 {
      assert es[0 := e][1..] == es[1..];
      MergeSelf(es[1..]);
    } else {
      assert es[q := e][1..] == es[1..][q - 1 := e];
      MergeUpdate(es[1..], q - 1, e);
    }
  }

  lemma {:induction false} CountUpdate(es: seq<Entry>, q: nat, e: Entry, x: Identity)
    requires q < |es|
    ensures IdCount(es[q := e], x) + (if IdOf(es[q]) == x then 1 else 0) == IdCount(es, x) + (if IdOf(e) == x then 1 else 0)
  {
    if q == 0 {
      assert es[0 := e][1..] == es[1..];
    } else {
      assert es[q := e][1..] == es[1..][q - 1 := e];
      CountUpdate(es[1..], q - 1, e, x);
    }
  }

  lemma UpdateStaysSorted(es: seq<Entry>, q: nat, e: Entry)
    requires Sorted(es) && q < |es| && KeyOf(e) == KeyOf(es[q])
    ensures Sort(es[q := e]) == es[q := e]
  {
    hide Before;
    var t := es[q := e];
    assert forall i :: 0 <= i < |t| ==> KeyOf(t[i]) == KeyOf(es[i]);
    SortOfSorted(t);
  }

  /** Between two equal keys of a sorted state that differ in lastmod, two neighbours do. */
  lemma {:induction false} Clash(es: seq<Entry>, i: nat, j: nat) returns (p: nat)
    requires Sorted(es) && i < j < |es| && KeyOf(es[i]) == KeyOf(es[j]) && es[i].lastmod != es[j].lastmod
    ensures p + 1 < |es| && KeyOf(es[p]) == KeyOf(es[p + 1]) && es[p].lastmod != es[p + 1].lastmod
    decreases j - i
  {
    if j == i + 1 {
      p := i;
    } else {
      BeforeIsStrict(KeyOf(es[i]), KeyOf(es[i + 1]));
      assert !Before(KeyOf(es[i + 1]), KeyOf(es[i])) && !Before(KeyOf(es[j]), KeyOf(es[i + 1]));
      if es[i].lastmod != es[i + 1].lastmod {
        p := i;
      } else {
        p := Clash(es, i + 1, j);
      }
    }
  }

  function TextOf(lastmod: Option<Text>): Text { if lastmod.Some? then lastmod.value else [] }

  lemma Unseen(a: Option<Text>, b: Option<Text>) returns (c: Option<Text>)
    ensures c != a && c != b
  {
    c := Some([0] + TextOf(a) + TextOf(b));
    assert |TextOf(c)| == 1 + |TextOf(a)| + |TextOf(b)|;
  }

  lemma UpdatesDiffer(es: seq<Entry>, p: nat, e: Entry)
    requires p + 1 < |es| && es[p].lastmod != es[p + 1].lastmod && e.lastmod != es[p].lastmod && e.lastmod != es[p + 1].lastmod
    ensures Ids(es[p := e]) != Ids(es[p + 1 := e])
  {
    hide Ids, IdCount;
    var x := IdOf(es[p]);
    CountUpdate(es, p, e, x);
    CountUpdate(es, p + 1, e, x);
    IdsCount(es[p := e], x);
    IdsCount(es[p + 1 := e], x);
  }

  /** One change at either of two clashing neighbours leaves the same diff. */
  lemma Confusion(previous: seq<Entry>, p: nat)
    requires var es := Sort(previous); p + 1 < |es| && KeyOf(es[p]) == KeyOf(es[p + 1]) && es[p].lastmod != es[p + 1].lastmod
    ensures !DiffDetermines(previous)
  {
    var es := Sort(previous);
    SortIsStable(previous);
    var lastmod := Unseen(es[p].lastmod, es[p + 1].lastmod);
    var e := es[p].(lastmod := lastmod);
    hide Sort, Merge, Sorted, Occ, Ids;
    UpdateStaysSorted(es, p, e);
    UpdateStaysSorted(es, p + 1, e);
    MergeUpdate(es, p, e);
    MergeUpdate(es, p + 1, e);
    UpdatesDiffer(es, p, e);
    assert DiffOf(previous, es[p := e]) == DiffOf(previous, es[p + 1 := e]);
  }

  lemma SortUnmixes(es: seq<Entry>, i: nat, j: nat) returns (a: nat, b: nat)
    requires i < |es| && j < |es| && KeyOf(es[i]) == KeyOf(es[j]) && es[i].lastmod != es[j].lastmod
    ensures a < b < |Sort(es)| && KeyOf(Sort(es)[a]) == KeyOf(Sort(es)[b]) && Sort(es)[a].lastmod != Sort(es)[b].lastmod
  {
    SortIsStable(es);
    assert es[i] in multiset(es) && es[j] in multiset(es);
    var s := Sort(es);
    assert es[i] in multiset(s) && es[j] in multiset(s);
    a :| 0 <= a < |s| && s[a] == es[i];
    b :| 0 <= b < |s| && s[b] == es[j];
    if b < a { a, b := b, a; }
  }

  /** A diff determines the new state, up to raw URLs, exactly for old states with uniform keys. */
  lemma DiffDeterminesExactlyForUniformKeys(previous: seq<Entry>)
    ensures DiffDetermines(previous) <==> UniformKeys(previous)
  {
    if UniformKeys(previous) {
      UniformKeysAreUniform(previous);
      forall a, b | DiffOf(previous, a) == DiffOf(previous, b) ensures Ids(a) == Ids(b) {
        ReplayRestores(previous, a, ModsOf(previous));
        ReplayRestores(previous, b, ModsOf(previous));
      }
    } else {
      var i, j :| 0 <= i < |previous| && 0 <= j < |previous| && KeyOf(previous[i]) == KeyOf(previous[j])
                  && previous[i].lastmod != previous[j].lastmod;
      var a, b := SortUnmixes(previous, i, j);
      SortIsStable(previous);
      var p := Clash(Sort(previous), a, b);
      Confusion(previous, p);
    }
  }
}

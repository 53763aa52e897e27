/** sitemap_monitor/diff.py: the merge of two sorted states, and what it says of them. */
module Diff {
  import opened Prelude
  import opened Entries

  datatype DiffResult = DiffResult(added: seq<Entry>, modified: seq<Entry>, removed: seq<Entry>)

  function Plus(a: DiffResult, b: DiffResult): DiffResult {
    DiffResult(a.added + b.added, a.modified + b.modified, a.removed + b.removed)
  }

  const NOTHING := DiffResult([], [], [])

  /** The merge of two sequences that are already in order. */
  function Merge(was: seq<Entry>, now: seq<Entry>): DiffResult
    decreases |was| + |now|
  {
    if was == [] then DiffResult(now, [], [])
    else if now == [] then DiffResult([], [], was)
    else if KeyOf(was[0]) == KeyOf(now[0]) then
      Plus(DiffResult([], if was[0].lastmod != now[0].lastmod then [now[0]] else [], []), Merge(was[1..], now[1..]))
    else if Before(KeyOf(was[0]), KeyOf(now[0])) then
      Plus(DiffResult([], [], [was[0]]), Merge(was[1..], now))
    else
      Plus(DiffResult([now[0]], [], []), Merge(was, now[1..]))
  }

  function DiffOf(previous: seq<Entry>, current: seq<Entry>): DiffResult { Merge(Sort(previous), Sort(current)) }

  method DiffStates(previous: seq<Entry>, current: seq<Entry>) returns (d: DiffResult)
    ensures d == DiffOf(previous, current)
  {
    hide Before, Sort;
    var was, now := Sort(previous), Sort(current);
    var added, removed, modified: seq<Entry> := [], [], [];
    var i, j := 0, 0;
    while i < |was| || j < |now|
      invariant 0 <= i <= |was| && 0 <= j <= |now|
      invariant Plus(DiffResult(added, modified, removed), Merge(was[i..], now[j..])) == Merge(was, now)
      decreases |was| - i + |now| - j
    {
      if i >= |was| {
        assert Merge(was[i..], now[j..]) == DiffResult(now[j..], [], []);
        added := added + now[j..];
        return DiffResult(added, modified, removed);
      }
      if j >= |now| {
        assert Merge(was[i..], now[j..]) == DiffResult([], [], was[i..]);
        removed := removed + was[i..];
        return DiffResult(added, modified, removed);
      }
      MergeStep(was, now, i, j, DiffResult(added, modified, removed));
      if KeyOf(was[i]) == KeyOf(now[j]) {
        if was[i].lastmod != now[j].lastmod { modified := modified + [now[j]]; }
        i, j := i + 1, j + 1;
      } else if Before(KeyOf(was[i]), KeyOf(now[j])) {
        removed := removed + [was[i]];
        i := i + 1;
      } else {
        added := added + [now[j]];
        j := j + 1;
      }
    }
    assert Merge(was[i..], now[j..]) == NOTHING;
    d := DiffResult(added, modified, removed);
    assert Plus(d, NOTHING) == d;
  }

  lemma MergeStep(was: seq<Entry>, now: seq<Entry>, i: nat, j: nat, d: DiffResult)
    requires i < |was| && j < |now|
    ensures Plus(d, Merge(was[i..], now[j..])) ==
      if KeyOf(was[i]) == KeyOf(now[j]) then
        Plus(d.(modified := d.modified + if was[i].lastmod != now[j].lastmod then [now[j]] else []),
             Merge(was[i + 1..], now[j + 1..]))
      else if Before(KeyOf(was[i]), KeyOf(now[j])) then
        Plus(d.(removed := d.removed + [was[i]]), Merge(was[i + 1..], now[j..]))
      else
        Plus(d.(added := d.added + [now[j]]), Merge(was[i..], now[j + 1..]))
  {
    hide Before;
    assert was[i..][1..] == was[i + 1..] && now[j..][1..] == now[j + 1..];
  }

  // ---------- key by key ----------

  /** The entries of one key, old and new, are paired off in order. */
  function Pairs(was: seq<Entry>, now: seq<Entry>): DiffResult {
    if was == [] || now == [] then DiffResult(now, [], was)
    else Plus(DiffResult([], if was[0].lastmod != now[0].lastmod then [now[0]] else [], []), Pairs(was[1..], now[1..]))
  }

  function AtKey(d: DiffResult, k: Key): DiffResult {
    DiffResult(Occ(d.added, k), Occ(d.modified, k), Occ(d.removed, k))
  }

  lemma {:induction false} OccConcat(a: seq<Entry>, b: seq<Entry>, k: Key)
    ensures Occ(a + b, k) == Occ(a, k) + Occ(b, k)
  {
    if a == [] {
      assert a + b == b;
    } else {
      OccConcat(a[1..], b, k);
      assert (a + b)[1..] == a[1..] + b;
    }
  }

  lemma AtKeyPlus(a: DiffResult, b: DiffResult, k: Key)
    ensures AtKey(Plus(a, b), k) == Plus(AtKey(a, k), AtKey(b, k))
  {
    OccConcat(a.added, b.added, k);
    OccConcat(a.modified, b.modified, k);
    OccConcat(a.removed, b.removed, k);
  }

  lemma {:induction false} MergeAtKey(was: seq<Entry>, now: seq<Entry>, k: Key)
    requires Sorted(was) && Sorted(now)
    ensures AtKey(Merge(was, now), k) == Pairs(Occ(was, k), Occ(now, k))
    decreases |was| + |now|
  {
    if was != [] && now != [] {
      SortedByHead(was);
      SortedByHead(now);
      hide Sorted, Before;
      BeforeIsStrict(KeyOf(was[0]), KeyOf(now[0]));
      if KeyOf(was[0]) == KeyOf(now[0]) {
        var head := DiffResult([], if was[0].lastmod != now[0].lastmod then [now[0]] else [], []);
        MergeAtKey(was[1..], now[1..], k);
        AtKeyPlus(head, Merge(was[1..], now[1..]), k);
      } else if Before(KeyOf(was[0]), KeyOf(now[0])) {
        MergeAtKey(was[1..], now, k);
        AtKeyPlus(DiffResult([], [], [was[0]]), Merge(was[1..], now), k);
        if k == KeyOf(was[0]) { NoneBeyond(now, k); }
      } else {
        MergeAtKey(was, now[1..], k);
        AtKeyPlus(DiffResult([now[0]], [], []), Merge(was, now[1..]), k);
        if k == KeyOf(now[0]) { NoneBeyond(was, k); }
      }
    }
  }

  /** Entry by entry of each key, in input order: paired while both sides last, then added or removed. */
  lemma DiffAtKey(previous: seq<Entry>, current: seq<Entry>, k: Key)
    ensures AtKey(DiffOf(previous, current), k) == Pairs(Occ(previous, k), Occ(current, k))
  {
    SortIsStable(previous);
    SortIsStable(current);
    MergeAtKey(Sort(previous), Sort(current), k);
  }

  lemma {:induction false} PairsCount(was: seq<Entry>, now: seq<Entry>)
    ensures var d := Pairs(was, now);
      && |d.added| == Excess(|now|, |was|) && |d.removed| == Excess(|was|, |now|)
      && |d.modified| <= Min(|was|, |now|)
  {
    if was != [] && now != [] { PairsCount(was[1..], now[1..]); }
  }

  lemma DiffCountsKeys(previous: seq<Entry>, current: seq<Entry>, k: Key)
    ensures var d := DiffOf(previous, current); var before, after := Keys(previous)[k], Keys(current)[k];
      && Keys(d.added)[k] == Excess(after, before) && Keys(d.removed)[k] == Excess(before, after)
      && Keys(d.modified)[k] <= Min(before, after)
  {
    hide Sort, Merge, Keys, Occ;
    var d := DiffOf(previous, current);
    DiffAtKey(previous, current, k);
    PairsCount(Occ(previous, k), Occ(current, k));
    KeysCountOcc(d.added, k);
    KeysCountOcc(d.removed, k);
    KeysCountOcc(d.modified, k);
    KeysCountOcc(previous, k);
    KeysCountOcc(current, k);
  }

  /** Added is new minus old and removed is old minus new, as multisets of keys. */
  lemma DiffIsMultisetDifference(previous: seq<Entry>, current: seq<Entry>)
    ensures var d := DiffOf(previous, current);
      && Keys(d.added) == Keys(current) - Keys(previous)
      && Keys(d.removed) == Keys(previous) - Keys(current)
      && Keys(d.modified) <= Keys(previous) * Keys(current)
  {
    hide Keys, DiffOf;
    var d := DiffOf(previous, current);
    forall k
      ensures Keys(d.added)[k] == Excess(Keys(current)[k], Keys(previous)[k])
      ensures Keys(d.removed)[k] == Excess(Keys(previous)[k], Keys(current)[k])
      ensures Keys(d.modified)[k] <= Min(Keys(previous)[k], Keys(current)[k])
    {
      DiffCountsKeys(previous, current, k);
    }
  }

  lemma {:induction false} MergeSwaps(was: seq<Entry>, now: seq<Entry>)
    ensures Merge(now, was).added == Merge(was, now).removed
    ensures Merge(now, was).removed == Merge(was, now).added
    ensures |Merge(now, was).modified| == |Merge(was, now).modified|
    decreases |was| + |now|
  {
    if was != [] && now != [] {
      hide Before;
      BeforeIsStrict(KeyOf(was[0]), KeyOf(now[0]));
      if KeyOf(was[0]) == KeyOf(now[0]) {
        MergeSwaps(was[1..], now[1..]);
      } else if Before(KeyOf(was[0]), KeyOf(now[0])) {
        MergeSwaps(was[1..], now);
      } else {
        MergeSwaps(was, now[1..]);
      }
    }
  }

  /** Swapping the states swaps added and removed. */
  lemma SwapSwapsAddedAndRemoved(previous: seq<Entry>, current: seq<Entry>)
    ensures var d := DiffOf(previous, current); var back := DiffOf(current, previous);
      back.added == d.removed && back.removed == d.added && |back.modified| == |d.modified|
  {
    MergeSwaps(Sort(previous), Sort(current));
  }

  // ---------- replaying a diff ----------

  /** Every entry of one key carries the lastmod `mods` gives that key. */
  ghost predicate Uniform(es: seq<Entry>, mods: Key -> Option<Text>) {
    forall e :: e in es ==> e.lastmod == mods(KeyOf(e))
  }

  /** The identities that the modified entries replace. */
  function Replaced(modified: seq<Entry>, mods: Key -> Option<Text>): seq<Entry> {
    seq(|modified|, i requires 0 <= i < |modified| => modified[i].(lastmod := mods(KeyOf(modified[i]))))
  }

  /** The state a diff leads to from the old one. */
  function Replay(was: multiset<Identity>, d: DiffResult, mods: Key -> Option<Text>): multiset<Identity> {
    was - Ids(d.removed) - Ids(Replaced(d.modified, mods)) + Ids(d.modified) + Ids(d.added)
  }

  lemma ReplacedGrows(e: Entry, rest: seq<Entry>, mods: Key -> Option<Text>, x: Identity)
    ensures IdCount(Replaced([e] + rest, mods), x)
         == (if Identity(KeyOf(e), mods(KeyOf(e))) == x then 1 else 0) + IdCount(Replaced(rest, mods), x)
  {
    assert Replaced([e] + rest, mods)[1..] == Replaced(rest, mods);
  }

  lemma CountGrows(e: Entry, rest: seq<Entry>, x: Identity)
    ensures IdCount([e] + rest, x) == (if IdOf(e) == x then 1 else 0) + IdCount(rest, x)
  {
    assert ([e] + rest)[1..] == rest;
  }

  /** Identity by identity, a merge balances, and takes only from the old side. */
  lemma {:induction false} MergeBalances(was: seq<Entry>, now: seq<Entry>, mods: Key -> Option<Text>, x: Identity)
    requires Uniform(was, mods)
    ensures var d := Merge(was, now);
      && IdCount(was, x) + IdCount(d.modified, x) + IdCount(d.added, x)
           == IdCount(now, x) + IdCount(d.removed, x) + IdCount(Replaced(d.modified, mods), x)
      && IdCount(d.removed, x) + IdCount(Replaced(d.modified, mods), x) <= IdCount(was, x)
    decreases |was| + |now|
  {
    if was == [] || now == [] {
      assert Replaced([], mods) == [];
    } else {
      hide Before, Replaced;
      assert was[0] in was && forall e :: e in was[1..] ==> e in was;
      if KeyOf(was[0]) == KeyOf(now[0]) {
        var rest := Merge(was[1..], now[1..]);
        MergeBalances(was[1..], now[1..], mods, x);
        CountGrows(now[0], rest.modified, x);
        ReplacedGrows(now[0], rest.modified, mods, x);
        assert [] + rest.modified == rest.modified && [] + rest.added == rest.added && [] + rest.removed == rest.removed;
      } else if Before(KeyOf(was[0]), KeyOf(now[0])) {
        var rest := Merge(was[1..], now);
        MergeBalances(was[1..], now, mods, x);
        CountGrows(was[0], rest.removed, x);
        assert [] + rest.modified == rest.modified && [] + rest.added == rest.added;
      } else {
        var rest := Merge(was, now[1..]);
        MergeBalances(was, now[1..], mods, x);
        CountGrows(now[0], rest.added, x);
        assert [] + rest.modified == rest.modified && [] + rest.removed == rest.removed;
      }
    }
  }

  lemma UniformSorts(es: seq<Entry>, mods: Key -> Option<Text>)
    requires Uniform(es, mods)
    ensures Uniform(Sort(es), mods)
  {
    SortIsStable(es);
    forall e | e in Sort(es) ensures e in es { assert e in multiset(Sort(es)); }
  }

  /** Replaying a diff on the old state gives the new one, up to raw URLs. */
  lemma ReplayRestores(previous: seq<Entry>, current: seq<Entry>, mods: Key -> Option<Text>)
    requires Uniform(previous, mods)
    ensures Replay(Ids(previous), DiffOf(previous, current), mods) == Ids(current)
  {
    UniformSorts(previous, mods);
    SortKeepsIds(previous);
    SortKeepsIds(current);
    hide Sort, Ids, Merge, Replaced, IdCount, Uniform;
    var d := DiffOf(previous, current);
    forall x
      ensures Ids(d.removed)[x] + Ids(Replaced(d.modified, mods))[x] <= Ids(previous)[x]
      ensures Ids(previous)[x] + Ids(d.modified)[x] + Ids(d.added)[x]
           == Ids(current)[x] + Ids(d.removed)[x] + Ids(Replaced(d.modified, mods))[x]
    {
      MergeBalances(Sort(previous), Sort(current), mods, x);
      IdsCount(Sort(previous), x);
      IdsCount(Sort(current), x);
      IdsCount(d.removed, x);
      IdsCount(d.modified, x);
      IdsCount(d.added, x);
      IdsCount(Replaced(d.modified, mods), x);
    }
  }
}

/** The leaf terms a tool may be given, from the markets that were recalled. */
module LeafPool {
  import opened Prelude

  type Term(==, !new)

  /** A market's children, or the market itself when it is a leaf. */
  function Offered(market: Term, children: Term -> seq<Term>): seq<Term> {
    if children(market) != [] then children(market) else [market]
  }

  function AllOffered(markets: seq<Term>, children: Term -> seq<Term>): seq<Term> {
    if markets == [] then []
    else AllOffered(markets[..|markets| - 1], children) + Offered(markets[|markets| - 1], children)
  }

  lemma {:induction false} DistinctJoins(xs: seq<Term>, ys: seq<Term>, n: nat)
    requires n < |ys|
    ensures Distinct(xs + ys[..n + 1]) ==
      var before := Distinct(xs + ys[..n]); if ys[n] in before then before else before + [ys[n]]
  {
    assert (xs + ys[..n + 1])[..|xs| + n] == xs + ys[..n];
  }

  /** build_leaf_candidate_pool: each term once, where it is first offered. */
  method BuildLeafCandidatePool(markets: seq<Term>, children: Term -> seq<Term>) returns (pool: seq<Term>)
    ensures pool == Distinct(AllOffered(markets, children))
    ensures forall i, j :: 0 <= i < j < |pool| ==> pool[i] != pool[j]
    ensures forall t :: t in pool <==> exists i :: 0 <= i < |markets| && t in Offered(markets[i], children)
  {
    assert Distinct(AllOffered([], children)) == [];
    hide Offered, Distinct, Elements;
    pool := [];
    var seen: set<Term> := Elements(pool);
    for i := 0 to |markets|
      invariant pool == Distinct(AllOffered(markets[..i], children)) && seen == Elements(pool)
    {
      assert markets[..i + 1][..i] == markets[..i];
      pool, seen := AddOffered(pool, seen, Offered(markets[i], children), AllOffered(markets[..i], children));
    }
    assert markets[..|markets|] == markets;
    DistinctKeepsEach(AllOffered(markets, children));
    OfferedBySome(markets, children);
  }

  method AddOffered(pool: seq<Term>, seen: set<Term>, offered: seq<Term>, ghost before: seq<Term>)
    returns (more: seq<Term>, nowSeen: set<Term>)
    requires pool == Distinct(before) && seen == Elements(pool)
    ensures more == Distinct(before + offered) && nowSeen == Elements(more)
  {
    more, nowSeen := pool, seen;
    assert before + offered[..0] == before;
    for k := 0 to |offered|
      invariant more == Distinct(before + offered[..k]) && nowSeen == Elements(more)
    {
      DistinctJoins(before, offered, k);
      if offered[k] !in nowSeen { more, nowSeen := more + [offered[k]], nowSeen + {offered[k]}; }
    }
    assert offered[..|offered|] == offered;
  }

  lemma {:induction false} OfferedBySome(markets: seq<Term>, children: Term -> seq<Term>)
    ensures forall t :: t in AllOffered(markets, children) <==> exists i :: 0 <= i < |markets| && t in Offered(markets[i], children)
  {
    if markets != [] {
      var front := markets[..|markets| - 1];
      OfferedBySome(front, children);
      assert markets == front + [markets[|markets| - 1]];
      hide Offered;
    }
  }

  /** The term is the market's to give. */
  predicate Gives(market: Term, t: Term, children: Term -> seq<Term>) {
    if |children(market)| > 0 then t in children(market) else t == market
  }

  /** What a market gives, in its order. */
  function Gifts(market: Term, children: Term -> seq<Term>): seq<Term> { if |children(market)| > 0 then children(market) else [market] }

  /** The first market to give either gives x, and y if at all after it. */
  ghost predicate FirstGiven(markets: seq<Term>, children: Term -> seq<Term>, x: Term, y: Term) {
    exists m :: 0 <= m < |markets| && ComesFirst(Gifts(markets[m], children), x, y) && forall l :: 0 <= l < m ==> !Gives(markets[l], y, children)
  }

  lemma FirstGivenOn(markets: seq<Term>, children: Term -> seq<Term>, x: Term, y: Term)
    requires markets != []
    requires var front, last := markets[..|markets| - 1], markets[|markets| - 1];
      FirstGiven(front, children, x, y) || (ComesFirst(Gifts(last, children), x, y) && forall l :: 0 <= l < |front| ==> !Gives(front[l], y, children))
    ensures FirstGiven(markets, children, x, y)
  {
    hide ComesFirst, Gives, Gifts;
    var front, last := markets[..|markets| - 1], markets[|markets| - 1];
    assert forall l :: 0 <= l < |front| ==> markets[l] == front[l];
    if FirstGiven(front, children, x, y) {
      var m :| 0 <= m < |front| && ComesFirst(Gifts(front[m], children), x, y) && forall l :: 0 <= l < m ==> !Gives(front[l], y, children);
      assert markets[m] == front[m];
    } else {
      assert markets[|front|] == last;
    }
  }

  lemma {:induction false} OfferedEarlier(markets: seq<Term>, children: Term -> seq<Term>, x: Term, y: Term)
    requires ComesFirst(AllOffered(markets, children), x, y)
    ensures FirstGiven(markets, children, x, y)
  {
    var front, last := markets[..|markets| - 1], markets[|markets| - 1];
    assert Offered(last, children) == Gifts(last, children);
    InJoinComesFirst(AllOffered(front, children), Offered(last, children), x, y);
    hide ComesFirst, Offered, Gives, Gifts, FirstGiven;
    if ComesFirst(AllOffered(front, children), x, y) {
      OfferedEarlier(front, children, x, y);
    } else {
      NotGivenBefore(front, children, y);
    }
    FirstGivenOn(markets, children, x, y);
  }

  lemma NotGivenBefore(markets: seq<Term>, children: Term -> seq<Term>, y: Term)
    ensures y !in AllOffered(markets, children) <==> forall l :: 0 <= l < |markets| ==> !Gives(markets[l], y, children)
  {
    OfferedBySome(markets, children);
    forall l | 0 <= l < |markets| ensures y in Offered(markets[l], children) <==> Gives(markets[l], y, children) {}
  }

  /** The pool in plain terms: who is in it, once, and who comes first. */
  lemma PoolTells(markets: seq<Term>, children: Term -> seq<Term>)
    ensures var pool := Distinct(AllOffered(markets, children));
      && Apart(pool)
      && (forall t :: t in pool <==> exists i :: 0 <= i < |markets| && Gives(markets[i], t, children))
      && (forall i, j :: 0 <= i < j < |pool| ==> FirstGiven(markets, children, pool[i], pool[j]))
  {
    var all, pool := AllOffered(markets, children), Distinct(AllOffered(markets, children));
    DistinctKeepsEach(all);
    forall t ensures t in pool <==> exists i :: 0 <= i < |markets| && Gives(markets[i], t, children) { NotGivenBefore(markets, children, t); }
    DistinctKeepsOrder(all);
    hide Distinct, AllOffered, Gives, FirstGiven, ComesFirst;
    forall i, j | 0 <= i < j < |pool| ensures FirstGiven(markets, children, pool[i], pool[j]) { OfferedEarlier(markets, children, pool[i], pool[j]); }
  }
}

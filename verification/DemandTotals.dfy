/** What a demand plan conserves: nothing observed is lost, doubled or moved between keywords. */
module DemandTotals {
  import opened Prelude
  import opened DemandPlan

  function MetricTraffic(m: Metric): nat { m.traffic }

  function MetricProducts(m: Metric): nat { m.products }

  function RowTraffic(r: TermRow): nat { r.traffic }

  function RowProducts(r: TermRow): nat { r.products }

  function RowKeyword(r: TermRow): Keyword { r.keyword }

  lemma {:induction false} SumOfOnes(obs: seq<Observation>)
    ensures Sum(obs, One) == |obs|
  {
    if obs != [] { SumOfOnes(obs[..|obs| - 1]); }
  }

  // ---------- over keywords ----------

  lemma {:induction false} MetricsAddUp(metrics: seq<Metric>, obs: seq<Observation>, sectors: map<Term, Sector>, keys: seq<Keyword>)
    requires MetricsFit(metrics, obs, sectors, keys)
    ensures Sum(metrics, MetricTraffic) == GroupedSum(keys, obs, KeywordOf, TrafficOf)
    ensures Sum(metrics, MetricProducts) == GroupedSum(keys, obs, KeywordOf, One)
    decreases |keys|
  {
    if keys != [] {
      var last := |keys| - 1;
      assert MetricFits(metrics[last], obs, sectors, keys[last]);
      MetricsAddUp(metrics[..last], obs, sectors, keys[..last]);
      SumOfOnes(Group(obs, keys[last]));
      hide IsPrimary, Markets, Largest;
    }
  }

  /** The metrics' totals are the observations' totals. */
  lemma MetricsConserve(plan: Plan, rows: seq<Row>, sectors: map<Term, Sector>)
    requires PlanFits(plan, rows, sectors)
    ensures Sum(plan.metrics, MetricTraffic) == Sum(plan.observations, TrafficOf) == plan.summary.traffic
    ensures Sum(plan.metrics, MetricProducts) == |plan.observations| == plan.summary.observations
    ensures |plan.metrics| == |Keywords(plan.observations)| == plan.summary.terms
  {
    var obs, keys := plan.observations, Ordered(Keywords(plan.observations));
    OrderedLists(Keywords(obs));
    hide MetricFits, AllTermRows, Ordered, Markets, Domains, Products;
    MetricsAddUp(plan.metrics, obs, sectors, keys);
    assert forall i :: 0 <= i < |obs| ==> obs[i].keyword in Keywords(obs);
    GroupsConserve(keys, obs, KeywordOf, TrafficOf);
    GroupsConserve(keys, obs, KeywordOf, One);
    SumOfOnes(obs);
  }

  // ---------- over one keyword's terms ----------

  function RowsFor(group: seq<Observation>, key: Keyword, terms: seq<Term>): seq<TermRow> {
    seq(|terms|, i requires 0 <= i < |terms| => TermRowOf(group, key, terms[i]))
  }

  /** No category first, then the terms. */
  function Categories(terms: seq<Term>): (categories: seq<Option<Term>>)
    ensures |categories| == |terms| + 1
  {
    seq(|terms| + 1, i requires 0 <= i <= |terms| => if i == 0 then None else Some(terms[i - 1]))
  }

  lemma {:induction false} RowsAddUp(group: seq<Observation>, key: Keyword, terms: seq<Term>)
    ensures GroupedSum(Categories(terms), group, TermOf, TrafficOf) ==
            Sum(Of(group, TermOf, None), TrafficOf) + Sum(RowsFor(group, key, terms), RowTraffic)
    ensures GroupedSum(Categories(terms), group, TermOf, One) ==
            |Of(group, TermOf, None)| + Sum(RowsFor(group, key, terms), RowProducts)
  {
    var categories, rows := Categories(terms), RowsFor(group, key, terms);
    if terms == [] {
      assert categories == [None];
      SumOfOnes(Of(group, TermOf, None));
    } else {
      var last := |terms| - 1;
      RowsAddUp(group, key, terms[..last]);
      assert categories[..|terms|] == Categories(terms[..last]) && categories[|terms|] == Some(terms[last]);
      assert rows[..last] == RowsFor(group, key, terms[..last]) && rows[last] == TermRowOf(group, key, terms[last]);
      SumOfOnes(Members(group, terms[last]));
    }
  }

  lemma CategoriesCover(terms: seq<Term>)
    ensures Apart(terms) ==> Apart(Categories(terms))
    ensures None in Categories(terms) && forall t :: t in terms ==> Some(t) in Categories(terms)
  {
    var categories := Categories(terms);
    assert categories[0] == None;
    forall t | t in terms ensures Some(t) in categories {
      var at :| 0 <= at < |terms| && terms[at] == t;
      assert categories[at + 1] == Some(t);
    }
  }

  /** The term rows of a keyword, with what has no category, make up the keyword's metric. */
  lemma TermsConserve(group: seq<Observation>, key: Keyword)
    ensures Sum(TermRows(group, key), RowTraffic) + Sum(Of(group, TermOf, None), TrafficOf) == Sum(group, TrafficOf)
    ensures Sum(TermRows(group, key), RowProducts) + |Of(group, TermOf, None)| == |group|
  {
    var terms := Ordered(Terms(group));
    var categories := Categories(terms);
    OrderedLists(Terms(group));
    assert TermRows(group, key) == RowsFor(group, key, terms);
    hide Ordered, Sum, GroupedSum, Of, Categories, TermRowOf;
    assert Apart(categories) by { CategoriesCover(terms); }
    forall i | 0 <= i < |group| ensures TermOf(group[i]) in categories {
      CategoriesCover(terms);
      assert group[i] in group && (group[i].term.Some? ==> group[i].term.value in Terms(group));
    }
    RowsAddUp(group, key, terms);
    GroupsConserve(categories, group, TermOf, TrafficOf);
    GroupsConserve(categories, group, TermOf, One);
    SumOfOnes(group);
  }

  lemma {:induction false} OfJoins<T, K>(xs: seq<T>, ys: seq<T>, kind: T -> K, key: K)
    ensures Of(xs + ys, kind, key) == Of(xs, kind, key) + Of(ys, kind, key)
  {
    if ys == [] {
      assert xs + ys == xs;
    } else {
      var front := ys[..|ys| - 1];
      OfJoins(xs, front, kind, key);
      assert (xs + ys)[..|xs + ys| - 1] == xs + front;
    }
  }

  lemma {:induction false} OfAllOrNothing<T, K>(xs: seq<T>, kind: T -> K, key: K)
    ensures (forall x :: x in xs ==> kind(x) == key) ==> Of(xs, kind, key) == xs
    ensures (forall x :: x in xs ==> kind(x) != key) ==> Of(xs, kind, key) == []
  {
    if xs != [] {
      OfAllOrNothing(xs[..|xs| - 1], kind, key);
      assert forall x :: x in xs[..|xs| - 1] ==> x in xs;
      assert xs[|xs| - 1] in xs;
      assert xs == xs[..|xs| - 1] + [xs[|xs| - 1]];
    }
  }

  /** In the table of term rows, each keyword finds its own. */
  lemma {:induction false} TermRowsOfKeyword(obs: seq<Observation>, keys: seq<Keyword>, key: Keyword)
    requires Apart(keys)
    ensures Of(AllTermRows(obs, keys), RowKeyword, key) == if key in keys then TermRows(Group(obs, key), key) else []
  {
    if keys != [] {
      var front, last := keys[..|keys| - 1], keys[|keys| - 1];
      TermRowsOfKeyword(obs, front, key);
      var rows := TermRows(Group(obs, last), last);
      assert keys == front + [last];
      assert forall r :: r in rows ==> r.keyword == last;
      OfJoins(AllTermRows(obs, front), rows, RowKeyword, key);
      OfAllOrNothing(rows, RowKeyword, key);
      assert key == last ==> key !in front;
    }
  }

  /** For every keyword of a plan: its term rows plus what has no category equal its metric. */
  lemma KeywordsConserve(plan: Plan, rows: seq<Row>, sectors: map<Term, Sector>, i: nat)
    requires PlanFits(plan, rows, sectors) && i < |plan.metrics|
    ensures var m := plan.metrics[i]; var group := Group(plan.observations, m.keyword);
      && Sum(Of(plan.terms, RowKeyword, m.keyword), RowTraffic) + Sum(Of(group, TermOf, None), TrafficOf) == m.traffic
      && Sum(Of(plan.terms, RowKeyword, m.keyword), RowProducts) + |Of(group, TermOf, None)| == m.products
  {
    var obs, keys := plan.observations, Ordered(Keywords(plan.observations));
    OrderedLists(Keywords(obs));
    assert MetricFits(plan.metrics[i], obs, sectors, keys[i]);
    hide Ordered, IsPrimary, TermRows, Sum, Of, Largest, Markets, AllTermRows;
    TermRowsOfKeyword(obs, keys, keys[i]);
    TermsConserve(Group(obs, keys[i]), keys[i]);
  }

  // ---------- no row twice ----------

  /** A product appears in one row of the cohort. */
  predicate OneRowEach(rows: seq<Row>) { forall i, j :: 0 <= i < j < |rows| ==> rows[i].product != rows[j].product }

  predicate SameKey(a: Observation, b: Observation) { a.keyword == b.keyword && a.product == b.product }

  predicate NoneTwice(obs: seq<Observation>) { forall i, j :: 0 <= i < j < |obs| ==> !SameKey(obs[i], obs[j]) }

  lemma {:induction false} RowKeepsEachOnce(row: Row, n: nat)
    requires n <= |Items(row)|
    ensures forall o :: o in OfRow(row, n) ==> o.product == row.product && exists k :: 0 <= k < n && Items(row)[k].keyword == Some(o.keyword)
    ensures NoneTwice(OfRow(row, n))
  {
    if n > 0 { RowKeepsEachOnce(row, n - 1); }
  }

  lemma {:induction false} SourceKeepsEachOnce(rows: seq<Row>)
    requires OneRowEach(rows)
    ensures forall o :: o in OfRows(rows) ==> exists i :: 0 <= i < |rows| && rows[i].product == o.product
    ensures NoneTwice(OfRows(rows))
  {
    if rows != [] {
      var front, row := rows[..|rows| - 1], rows[|rows| - 1];
      SourceKeepsEachOnce(front);
      RowKeepsEachOnce(row, |Items(row)|);
      var xs, ys := OfRows(front), OfRow(row, |Items(row)|);
      hide OfRow;
      forall o: Observation | o in xs + ys ensures exists i :: 0 <= i < |rows| && rows[i].product == o.product {
        if o in xs {
          var i :| 0 <= i < |front| && front[i].product == o.product;
          assert rows[i].product == o.product;
        }
      }
      forall i, j | 0 <= i < j < |xs + ys| ensures !SameKey((xs + ys)[i], (xs + ys)[j]) {
        if i < |xs| <= j {
          assert xs[i] in xs && ys[j - |xs|] in ys;
        }
      }
    }
  }

  lemma {:induction false} GroupNamesProducts(obs: seq<Observation>, key: Keyword)
    requires NoneTwice(obs)
    ensures |Products(Group(obs, key))| == |Group(obs, key)|
  {
    if obs != [] {
      var front, o := obs[..|obs| - 1], obs[|obs| - 1];
      GroupNamesProducts(front, key);
      var group := Group(front, key);
      if o.keyword == key {
        OfIsAFilter(front, KeywordOf, key);
        assert Products(group + [o]) == Products(group) + {o.product};
        forall x | x in group ensures x.product != o.product {
          assert x in front;
          var i :| 0 <= i < |front| && front[i] == x;
          assert !SameKey(obs[i], obs[|obs| - 1]);
        }
      }
    }
  }

  /** observed_products counts products, not observations: a product is seen once per keyword. */
  lemma ObservedProductsAreDistinct(plan: Plan, rows: seq<Row>, sectors: map<Term, Sector>, i: nat)
    requires PlanFits(plan, rows, sectors) && OneRowEach(rows) && i < |plan.metrics|
    ensures plan.metrics[i].products == |Products(Group(plan.observations, plan.metrics[i].keyword))|
  {
    var obs, keys := plan.observations, Ordered(Keywords(plan.observations));
    assert MetricFits(plan.metrics[i], obs, sectors, keys[i]);
    SourceKeepsEachOnce(rows);
    GroupNamesProducts(obs, keys[i]);
  }
}

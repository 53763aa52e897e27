/** The stored projection of a traffic month, and the validation that guards its publication. */
module DemandTables {
  import opened Prelude
  import opened DemandPlan
  import opened DemandTotals

  const PAGE := 100

  /** The rows of one month and source, each table in its scan order. */
  datatype Slice = Slice(observations: seq<Observation>, metrics: seq<Metric>, terms: seq<TermRow>)

  const EMPTY := Slice([], [], [])

  // ---------- the unique keys of the schema ----------

  predicate TermsOnce(terms: seq<TermRow>) {
    forall i, j :: 0 <= i < j < |terms| ==> terms[i].keyword != terms[j].keyword || terms[i].term != terms[j].term
  }

  predicate MetricsOnce(metrics: seq<Metric>) {
    forall i, j :: 0 <= i < j < |metrics| ==> metrics[i].keyword != metrics[j].keyword
  }

  predicate KeysUnique(slice: Slice) {
    NoneTwice(slice.observations) && MetricsOnce(slice.metrics) && TermsOnce(slice.terms)
  }

  ghost predicate SameRows(slice: Slice, plan: Plan) {
    && multiset(slice.observations) == multiset(plan.observations)
    && multiset(slice.metrics) == multiset(plan.metrics)
    && multiset(slice.terms) == multiset(plan.terms)
  }

  predicate Labelled(metrics: seq<Metric>, labels: set<Keyword>) { forall i :: 0 <= i < |metrics| ==> metrics[i].keyword in labels }

  // ---------- validate ----------

  /** The number of pairs a join of a page with the table finds. */
  function Joined<V(==)>(table: seq<V>, page: seq<V>): nat {
    if page == [] then 0 else Joined(table, page[..|page| - 1]) + multiset(table)[page[|page| - 1]]
  }

  function PageLength(n: nat): nat { if n < PAGE then n else PAGE }

  predicate PagesFound<V(==)>(table: seq<V>, expected: seq<V>)
    decreases |expected|
  {
    expected == [] ||
    var n := PageLength(|expected|);
    Joined(table, expected[..n]) == n && PagesFound(table, expected[n..])
  }

  predicate RowsFound<V(==)>(table: seq<V>, expected: seq<V>) { |table| == |expected| && PagesFound(table, expected) }

  method CompareRows<V(==)>(table: seq<V>, expected: seq<V>) returns (ok: bool)
    ensures ok <==> RowsFound(table, expected)
  {
    if |table| != |expected| { return false; }
    var offset := 0;
    while offset < |expected|
      invariant 0 <= offset <= |expected|
      invariant PagesFound(table, expected) <==> PagesFound(table, expected[offset..])
    {
      var rest := expected[offset..];
      var n := PageLength(|rest|);
      if Joined(table, rest[..n]) != n { return false; }
      assert rest[n..] == expected[offset + n..];
      offset := offset + n;
    }
    return true;
  }

  predicate TotalsFound(slice: Slice, labels: set<Keyword>, summary: Summary) {
    && |slice.observations| == summary.observations && |Keywords(slice.observations)| == summary.terms
    && |Products(slice.observations)| == summary.products && |Domains(slice.observations)| == summary.domains
    && Sum(slice.observations, TrafficOf) == summary.traffic
    && |slice.metrics| == summary.terms && Sum(slice.metrics, MetricTraffic) == summary.traffic
    && Sum(slice.metrics, MetricProducts) == summary.observations && Labelled(slice.metrics, labels)
  }

  predicate Accepts(slice: Slice, labels: set<Keyword>, plan: Plan) {
    && TotalsFound(slice, labels, plan.summary)
    && RowsFound(slice.observations, plan.observations)
    && RowsFound(slice.metrics, plan.metrics)
    && RowsFound(slice.terms, plan.terms)
  }

  method Validate(slice: Slice, labels: set<Keyword>, plan: Plan) returns (ok: bool)
    ensures ok <==> Accepts(slice, labels, plan)
  {
    if !TotalsFound(slice, labels, plan.summary) { return false; }
    ok := CompareRows(slice.observations, plan.observations);
    if !ok { return; }
    ok := CompareRows(slice.metrics, plan.metrics);
    if !ok { return; }
    ok := CompareRows(slice.terms, plan.terms);
  }

  // ---------- what the row comparison means ----------

  lemma {:induction false} OnceEach<V>(xs: seq<V>, v: V)
    requires Apart(xs)
    ensures multiset(xs)[v] == if v in xs then 1 else 0
  {
    if xs != [] {
      var front := xs[..|xs| - 1];
      OnceEach(front, v);
      assert xs == front + [xs[|xs| - 1]];
    }
  }

  lemma {:induction false} JoinedCounts<V>(table: seq<V>, page: seq<V>)
    requires Apart(table)
    ensures Joined(table, page) <= |page|
    ensures Joined(table, page) == |page| <==> forall v :: v in page ==> v in table
  {
    if page != [] {
      var front, last := page[..|page| - 1], page[|page| - 1];
      JoinedCounts(table, front);
      OnceEach(table, last);
      assert page == front + [last];
    }
  }

  lemma {:induction false} PagesFoundMeans<V>(table: seq<V>, expected: seq<V>)
    requires Apart(table)
    ensures PagesFound(table, expected) <==> forall v :: v in expected ==> v in table
    decreases |expected|
  {
    if expected != [] {
      var n := PageLength(|expected|);
      JoinedCounts(table, expected[..n]);
      PagesFoundMeans(table, expected[n..]);
      assert expected == expected[..n] + expected[n..];
    }
  }

  /** As many rows, all of them found, none twice: the same rows. */
  lemma RowsFoundMeansSame<V>(table: seq<V>, expected: seq<V>)
    requires Apart(table) && Apart(expected)
    ensures RowsFound(table, expected) <==> multiset(table) == multiset(expected)
  {
    PagesFoundMeans(table, expected);
    if RowsFound(table, expected) {
      ApartCount(table);
      ApartCount(expected);
      SubsetOfSize(Elements(expected), Elements(table));
      forall v ensures multiset(table)[v] == multiset(expected)[v] {
        OnceEach(table, v);
        OnceEach(expected, v);
        assert v in table <==> v in Elements(table);
      }
    }
    if multiset(table) == multiset(expected) {
      assert |table| == |multiset(table)| == |expected|;
      forall v | v in expected ensures v in table { assert v in multiset(expected); }
    }
  }

  /** Were the keys not unique, the comparison would pass over a missing row. */
  lemma RepeatedRowsDeceive(a: TermRow, b: TermRow)
    requires a != b
    ensures RowsFound([a, a], [a, b]) && multiset([a, a]) != multiset([a, b])
  {
    var table, expected := [a, a], [a, b];
    assert multiset(table)[a] == 2 && multiset(table)[b] == 0;
    assert multiset(expected)[b] == 1;
    assert expected[..1] == [a] && [a][..0] == [] && expected[..2] == expected && expected[2..] == [];
    assert Joined(table, [a]) == 2;
    assert Joined(table, expected) == 2;
  }

  // ---------- totals depend on the rows only ----------

  lemma {:induction false} SumWithout<T>(xs: seq<T>, weight: T -> nat, i: nat)
    requires i < |xs|
    ensures Sum(xs, weight) == Sum(xs[..i] + xs[i + 1..], weight) + weight(xs[i])
    decreases |xs|
  {
    var last := |xs| - 1;
    if i == last {
      assert xs[..i] + xs[i + 1..] == xs[..last];
    } else {
      SumWithout(xs[..last], weight, i);
      assert (xs[..i] + xs[i + 1..])[..last - 1] == xs[..last][..i] + xs[..last][i + 1..];
    }
  }

  lemma {:induction false} SumOfRows<T>(xs: seq<T>, ys: seq<T>, weight: T -> nat)
    requires multiset(xs) == multiset(ys)
    ensures Sum(xs, weight) == Sum(ys, weight)
    decreases |xs|
  {
    assert |xs| == |multiset(xs)| == |ys|;
    if xs != [] {
      var last := xs[|xs| - 1];
      assert xs == xs[..|xs| - 1] + [last];
      assert last in multiset(ys);
      var i :| 0 <= i < |ys| && ys[i] == last;
      var rest := ys[..i] + ys[i + 1..];
      assert ys == ys[..i] + [last] + ys[i + 1..];
      assert multiset(rest) == multiset(ys) - multiset{last} == multiset(xs[..|xs| - 1]);
      SumWithout(ys, weight, i);
      SumOfRows(xs[..|xs| - 1], rest, weight);
    }
  }

  lemma SameObservationSets(xs: seq<Observation>, ys: seq<Observation>)
    requires multiset(xs) == multiset(ys)
    ensures Keywords(xs) == Keywords(ys) && Products(xs) == Products(ys) && Domains(xs) == Domains(ys)
  {
    assert forall o :: o in xs <==> o in multiset(xs);
    assert forall o :: o in ys <==> o in multiset(ys);
  }

  lemma TotalsFollowTheRows(slice: Slice, labels: set<Keyword>, plan: Plan, rows: seq<Row>, sectors: map<Term, Sector>)
    requires PlanFits(plan, rows, sectors) && SameRows(slice, plan) && Labelled(plan.metrics, labels)
    ensures TotalsFound(slice, labels, plan.summary)
  {
    MetricsConserve(plan, rows, sectors);
    SumOfRows(slice.observations, plan.observations, TrafficOf);
    SumOfRows(slice.metrics, plan.metrics, MetricTraffic);
    SumOfRows(slice.metrics, plan.metrics, MetricProducts);
    SameObservationSets(slice.observations, plan.observations);
    assert |slice.observations| == |multiset(slice.observations)| == |plan.observations|;
    assert |slice.metrics| == |multiset(slice.metrics)| == |plan.metrics|;
    forall i | 0 <= i < |slice.metrics| ensures slice.metrics[i].keyword in labels {
      assert slice.metrics[i] in multiset(plan.metrics);
    }
  }

  // ---------- a plan's own keys ----------

  lemma {:induction false} TermRowsAreOnce(obs: seq<Observation>, keys: seq<Keyword>)
    requires Apart(keys)
    ensures forall r :: r in AllTermRows(obs, keys) ==> r.keyword in keys
    ensures TermsOnce(AllTermRows(obs, keys))
  {
    if keys != [] {
      var front, last := keys[..|keys| - 1], keys[|keys| - 1];
      TermRowsAreOnce(obs, front);
      var xs: seq<TermRow>, ys: seq<TermRow> := AllTermRows(obs, front), TermRows(Group(obs, last), last);
      OrderedLists(Terms(Group(obs, last)));
      assert keys == front + [last];
      hide AllTermRows, Ordered, Terms, Group, Sum;
      var all: seq<TermRow> := xs + ys;
      forall i, j | 0 <= i < j < |all| ensures all[i].keyword != all[j].keyword || all[i].term != all[j].term {
        if i < |xs| <= j { assert xs[i] in xs; }
      }
    }
  }

  lemma PlanKeysUnique(plan: Plan, rows: seq<Row>, sectors: map<Term, Sector>)
    requires PlanFits(plan, rows, sectors) && OneRowEach(rows)
    ensures NoneTwice(plan.observations) && MetricsOnce(plan.metrics) && TermsOnce(plan.terms)
  {
    var keys := Ordered(Keywords(plan.observations));
    SourceKeepsEachOnce(rows);
    OrderedLists(Keywords(plan.observations));
    TermRowsAreOnce(plan.observations, keys);
    forall i, j | 0 <= i < j < |plan.metrics| ensures plan.metrics[i].keyword != plan.metrics[j].keyword {
      assert MetricFits(plan.metrics[i], plan.observations, sectors, keys[i]);
      assert MetricFits(plan.metrics[j], plan.observations, sectors, keys[j]);
    }
  }

  /** validate accepts exactly the tables that hold the plan's rows, with every keyword labelled. */
  lemma ValidateAcceptsThePlan(slice: Slice, labels: set<Keyword>, plan: Plan, rows: seq<Row>, sectors: map<Term, Sector>)
    requires PlanFits(plan, rows, sectors) && OneRowEach(rows) && KeysUnique(slice)
    ensures Accepts(slice, labels, plan) <==> SameRows(slice, plan) && Labelled(plan.metrics, labels)
  {
    PlanKeysUnique(plan, rows, sectors);
    assert Apart(slice.observations) && Apart(plan.observations) && Apart(slice.metrics) && Apart(plan.metrics)
        && Apart(slice.terms) && Apart(plan.terms);
    RowsFoundMeansSame(slice.observations, plan.observations);
    RowsFoundMeansSame(slice.metrics, plan.metrics);
    RowsFoundMeansSame(slice.terms, plan.terms);
    hide PlanFits, RowsFound;
    if SameRows(slice, plan) && Labelled(plan.metrics, labels) { TotalsFollowTheRows(slice, labels, plan, rows, sectors); }
    if Accepts(slice, labels, plan) {
      forall i | 0 <= i < |plan.metrics| ensures plan.metrics[i].keyword in labels {
        assert plan.metrics[i] in multiset(slice.metrics);
      }
    }
  }
}

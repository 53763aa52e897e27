/** The keyword projection of one released traffic month, as make_plan computes it. */
module DemandPlan {
  import opened Prelude

  /** A normalised keyword, by its place in the sorting order. */
  type Keyword = nat
  type Product = nat
  type Domain = nat
  type Term = nat
  type Sector = nat
  type Instant = nat

  const LARGEST := 9007199254740991.0

  /** `keyword` is None for an entry that is no object, has no text name, or is blank once normalised. */
  datatype Item = Item(keyword: Option<Keyword>, traffic: Option<real>, volume: Option<real>, cpc: Option<real>)

  /** `keywords` is None when the stored document is not an array. */
  datatype Traffic = Traffic(capturedAt: Instant, snapshot: nat, keywords: Option<seq<Item>>)

  datatype Row = Row(product: Product, domain: Domain, term: Option<Term>, visits: Option<nat>, traffic: Option<Traffic>)

  datatype Observation = Observation(
    keyword: Keyword, product: Product, term: Option<Term>, domain: Domain, position: nat,
    traffic: nat, volume: nat, cpc: Option<real>, snapshot: nat, capturedAt: Instant)

  datatype Metric = Metric(
    keyword: Keyword, term: Option<Term>, traffic: nat, volume: nat, products: nat, markets: nat, capturedAt: Instant)

  datatype TermRow = TermRow(keyword: Keyword, term: Term, traffic: nat, products: nat, capturedAt: Instant)

  datatype Summary = Summary(
    terms: nat, domains: nat, products: nat, markets: nat, sourceLimit: nat, capturedAt: Instant,
    observations: nat, termRows: nat, traffic: nat)

  datatype Plan = Plan(observations: seq<Observation>, metrics: seq<Metric>, terms: seq<TermRow>, summary: Summary)

  // ---------- groups and totals ----------

  function Of<T, K(==)>(xs: seq<T>, kind: T -> K, key: K): seq<T> {
    if xs == [] then []
    else
      var before := Of(xs[..|xs| - 1], kind, key);
      if kind(xs[|xs| - 1]) == key then before + [xs[|xs| - 1]] else before
  }

  function Sum<T>(xs: seq<T>, weight: T -> nat): nat {
    if xs == [] then 0 else Sum(xs[..|xs| - 1], weight) + weight(xs[|xs| - 1])
  }

  function Largest<T>(xs: seq<T>, weight: T -> nat): nat {
    if xs == [] then 0
    else
      var before := Largest(xs[..|xs| - 1], weight);
      if weight(xs[|xs| - 1]) > before then weight(xs[|xs| - 1]) else before
  }

  /** The sum, over `keys`, of what each one's group weighs. */
  function GroupedSum<T, K(==)>(keys: seq<K>, xs: seq<T>, kind: T -> K, weight: T -> nat): nat {
    if keys == [] then 0
    else GroupedSum(keys[..|keys| - 1], xs, kind, weight) + Sum(Of(xs, kind, keys[|keys| - 1]), weight)
  }

  lemma {:induction false} OneMoreWeighs<T, K>(keys: seq<K>, xs: seq<T>, x: T, kind: T -> K, weight: T -> nat)
    requires Apart(keys)
    ensures GroupedSum(keys, xs + [x], kind, weight) ==
            GroupedSum(keys, xs, kind, weight) + if kind(x) in keys then weight(x) else 0
  {
    if keys != [] {
      var front, key := keys[..|keys| - 1], keys[|keys| - 1];
      OneMoreWeighs(front, xs, x, kind, weight);
      assert keys == front + [key];
      assert (xs + [x])[..|xs|] == xs;
      var group := Of(xs, kind, key);
      if kind(x) == key {
        assert kind(x) !in front;
        assert Of(xs + [x], kind, key) == group + [x];
        assert (group + [x])[..|group|] == group;
      }
    }
  }

  /** Grouping loses and doubles nothing: groups that cover every element weigh what all elements weigh. */
  lemma {:induction false} GroupsConserve<T, K>(keys: seq<K>, xs: seq<T>, kind: T -> K, weight: T -> nat)
    requires Apart(keys) && forall i :: 0 <= i < |xs| ==> kind(xs[i]) in keys
    ensures GroupedSum(keys, xs, kind, weight) == Sum(xs, weight)
  {
    if xs == [] {
      NothingWeighsNothing(keys, xs, kind, weight);
    } else {
      var front, x := xs[..|xs| - 1], xs[|xs| - 1];
      GroupsConserve(keys, front, kind, weight);
      OneMoreWeighs(keys, front, x, kind, weight);
      assert front + [x] == xs;
    }
  }

  lemma {:induction false} NothingWeighsNothing<T, K>(keys: seq<K>, xs: seq<T>, kind: T -> K, weight: T -> nat)
    requires xs == []
    ensures GroupedSum(keys, xs, kind, weight) == 0
  {
    if keys != [] { NothingWeighsNothing(keys[..|keys| - 1], xs, kind, weight); }
  }

  lemma {:induction false} OfIsAFilter<T, K>(xs: seq<T>, kind: T -> K, key: K)
    ensures forall x :: x in Of(xs, kind, key) <==> x in xs && kind(x) == key
  {
    if xs != [] {
      var front, last := xs[..|xs| - 1], xs[|xs| - 1];
      OfIsAFilter(front, kind, key);
      assert forall x :: x in xs <==> x in front || x == last;
    }
  }

  // ---------- least first ----------

  predicate IsLeast(k: nat, s: set<nat>) { k in s && forall j :: j in s ==> k <= j }

  lemma {:induction false} LeastExists(s: set<nat>) returns (least: nat)
    requires s != {}
    ensures IsLeast(least, s)
    decreases |s|
  {
    var k :| k in s;
    least := k;
    var rest := s - {k};
    assert forall j :: j in s <==> j == k || j in rest;
    if rest != {} {
      var other := LeastExists(rest);
      least := if k < other then k else other;
    }
    assert forall j :: j in rest ==> least <= j;
  }

  lemma SomeLeast(s: set<nat>)
    requires s != {}
    ensures exists k :: IsLeast(k, s)
  {
    var k := LeastExists(s);
  }

  ghost function Least(s: set<nat>): (k: nat)
    requires s != {}
    ensures IsLeast(k, s)
  {
    SomeLeast(s);
    var k :| IsLeast(k, s);
    k
  }

  /** sorted() of a set of keys. */
  ghost function Ordered(s: set<nat>): seq<nat>
    decreases |s|
  {
    if s == {} then [] else [Least(s)] + Ordered(s - {Least(s)})
  }

  lemma {:induction false} OrderedLists(s: set<nat>)
    ensures |Ordered(s)| == |s| && Apart(Ordered(s))
    ensures forall k :: k in Ordered(s) <==> k in s
    ensures forall i, j :: 0 <= i < j < |s| ==> Ordered(s)[i] < Ordered(s)[j]
    decreases |s|
  {
    if s != {} {
      var k, rest := Least(s), s - {Least(s)};
      OrderedLists(rest);
      var later := Ordered(rest);
      var all := [k] + later;
      assert Ordered(s) == all;
      assert forall j :: j in s <==> j == k || j in rest;
      hide IsLeast, Ordered;
      LeastIsBelow(s);
      assert forall j :: j in all <==> j == k || j in later;
      forall i, j | 0 <= i < j < |all| ensures all[i] < all[j] {
        assert all[j] == later[j - 1] && later[j - 1] in later;
        assert i > 0 ==> all[i] == later[i - 1];
      }
    }
  }

  lemma LeastIsBelow(s: set<nat>)
    requires s != {}
    ensures forall j :: j in s - {Least(s)} ==> Least(s) < j
  {
  }

  method TakeLeast(s: set<nat>) returns (k: nat)
    requires s != {}
    ensures k in s && k == Least(s)
  {
    SomeLeast(s);
    k :| k in s && IsLeast(k, s);
  }

  // ---------- observations ----------

  /** number(value, integer=True), where it does not refuse. */
  function Whole(value: Option<real>): nat {
    if value.None? || value.value < 0.0 then 0 else (value.value + 0.5).Floor
  }

  function Price(value: Option<real>): Option<real> { if value.Some? && value.value < 0.0 then None else value }

  predicate TooLarge(value: Option<real>) { value.Some? && value.value > LARGEST }

  predicate Refused(item: Item) { TooLarge(item.traffic) || TooLarge(item.volume) || TooLarge(item.cpc) }

  function Items(row: Row): seq<Item> {
    if row.traffic.Some? && row.traffic.value.keywords.Some? then row.traffic.value.keywords.value else []
  }

  /** The first usable entry of a keyword within its row. */
  predicate Kept(items: seq<Item>, k: nat)
    requires k < |items|
  {
    items[k].keyword.Some? && forall j :: 0 <= j < k ==> items[j].keyword != items[k].keyword
  }

  predicate Sound(row: Row) {
    && (row.visits.Some? ==> row.traffic.Some?)
    && (row.traffic.Some? ==> row.traffic.value.keywords.Some?)
    && forall k :: 0 <= k < |Items(row)| && Kept(Items(row), k) ==> !Refused(Items(row)[k])
  }

  function Observe(row: Row, k: nat): Observation
    requires k < |Items(row)| && Items(row)[k].keyword.Some?
  {
    var item := Items(row)[k];
    Observation(item.keyword.value, row.product, row.term, row.domain, k + 1, Whole(item.traffic), Whole(item.volume),
                Price(item.cpc), row.traffic.value.snapshot, row.traffic.value.capturedAt)
  }

  function OfRow(row: Row, n: nat): seq<Observation>
    requires n <= |Items(row)|
  {
    if n == 0 then []
    else if Kept(Items(row), n - 1) then OfRow(row, n - 1) + [Observe(row, n - 1)]
    else OfRow(row, n - 1)
  }

  function OfRows(rows: seq<Row>): seq<Observation> {
    if rows == [] then []
    else OfRows(rows[..|rows| - 1]) + OfRow(rows[|rows| - 1], |Items(rows[|rows| - 1])|)
  }

  // ---------- the plan ----------

  function KeywordOf(o: Observation): Keyword { o.keyword }

  function TermOf(o: Observation): Option<Term> { o.term }

  function TrafficOf(o: Observation): nat { o.traffic }

  function VolumeOf(o: Observation): nat { o.volume }

  function CaptureOf(o: Observation): nat { o.capturedAt }

  function One(o: Observation): nat { 1 }

  function Keywords(obs: seq<Observation>): set<Keyword> { set o | o in obs :: o.keyword }

  function Products(obs: seq<Observation>): set<Product> { set o | o in obs :: o.product }

  function Domains(obs: seq<Observation>): set<Domain> { set o | o in obs :: o.domain }

  function Terms(obs: seq<Observation>): set<Term> { set o | o in obs && o.term.Some? :: o.term.value }

  function Markets(obs: seq<Observation>, sectors: map<Term, Sector>): set<Sector> {
    set o | o in obs && o.term.Some? && o.term.value in sectors :: sectors[o.term.value]
  }

  function Group(obs: seq<Observation>, key: Keyword): seq<Observation> { Of(obs, KeywordOf, key) }

  function Members(group: seq<Observation>, term: Term): seq<Observation> { Of(group, TermOf, Some(term)) }

  predicate Ahead(group: seq<Observation>, a: Term, b: Term) {
    var x, y := Sum(Members(group, a), TrafficOf), Sum(Members(group, b), TrafficOf);
    x > y || (x == y && a <= b)
  }

  /** The term with most traffic, the lowest id among equals. */
  predicate IsPrimary(group: seq<Observation>, primary: Option<Term>) {
    match primary
    case None => Terms(group) == {}
    case Some(term) => term in Terms(group) && forall other :: other in Terms(group) ==> Ahead(group, term, other)
  }

  lemma OnePrimary(group: seq<Observation>, a: Option<Term>, b: Option<Term>)
    requires IsPrimary(group, a) && IsPrimary(group, b)
    ensures a == b
  {
    if a.Some? && b.Some? { assert Ahead(group, a.value, b.value) && Ahead(group, b.value, a.value); }
  }

  ghost predicate MetricFits(m: Metric, obs: seq<Observation>, sectors: map<Term, Sector>, key: Keyword) {
    var group := Group(obs, key);
    && m.keyword == key && IsPrimary(group, m.term)
    && m.traffic == Sum(group, TrafficOf) && m.volume == Largest(group, VolumeOf)
    && m.products == |group| && m.markets == |Markets(group, sectors)| && m.capturedAt == Largest(group, CaptureOf)
  }

  function TermRowOf(group: seq<Observation>, key: Keyword, term: Term): TermRow {
    var members := Members(group, term);
    TermRow(key, term, Sum(members, TrafficOf), |members|, Largest(members, CaptureOf))
  }

  ghost function TermRows(group: seq<Observation>, key: Keyword): seq<TermRow> {
    var terms := Ordered(Terms(group));
    seq(|terms|, i requires 0 <= i < |terms| => TermRowOf(group, key, terms[i]))
  }

  ghost function AllTermRows(obs: seq<Observation>, keys: seq<Keyword>): seq<TermRow> {
    if keys == [] then []
    else AllTermRows(obs, keys[..|keys| - 1]) + TermRows(Group(obs, keys[|keys| - 1]), keys[|keys| - 1])
  }

  function ItemCount(row: Row): nat { |Items(row)| }

  function SourceLimit(rows: seq<Row>): nat { Largest(rows, ItemCount) }

  ghost predicate MetricsFit(metrics: seq<Metric>, obs: seq<Observation>, sectors: map<Term, Sector>, keys: seq<Keyword>) {
    |metrics| == |keys| && forall i :: 0 <= i < |keys| ==> MetricFits(metrics[i], obs, sectors, keys[i])
  }

  /** What make_plan promises of the plan it returns for a reading of the source. */
  ghost predicate PlanFits(plan: Plan, rows: seq<Row>, sectors: map<Term, Sector>) {
    var obs := plan.observations;
    var keys := Ordered(Keywords(obs));
    && obs == OfRows(rows) && obs != []
    && MetricsFit(plan.metrics, obs, sectors, keys)
    && plan.terms == AllTermRows(obs, keys)
    && plan.summary == Summary(|keys|, |Domains(obs)|, |Products(obs)|, |Markets(obs, sectors)|, SourceLimit(rows),
                               Largest(obs, CaptureOf), |obs|, |plan.terms|, Sum(obs, TrafficOf))
  }

  // ---------- make_plan ----------

  /** The observations so far, and the same by keyword. */
  predicate Grouped(observations: seq<Observation>, grouped: map<Keyword, seq<Observation>>) {
    grouped.Keys == Keywords(observations) && forall key :: key in grouped ==> grouped[key] == Group(observations, key)
  }

  /** One row's keywords; None where the source raises. */
  method ReadKeywords(row: Row, before: seq<Observation>, byKeyword: map<Keyword, seq<Observation>>)
    returns (read: Option<(seq<Observation>, map<Keyword, seq<Observation>>)>)
    requires Grouped(before, byKeyword)
    ensures read.Some? <==> forall k :: 0 <= k < |Items(row)| && Kept(Items(row), k) ==> !Refused(Items(row)[k])
    ensures read.Some? ==> read.value.0 == before + OfRow(row, |Items(row)|) && Grouped(read.value.0, read.value.1)
  {
    hide Grouped, Refused, Observe;
    var observations, grouped, items := before, byKeyword, Items(row);
    var seen: set<Keyword> := {};
    for k := 0 to |items|
      invariant forall j :: 0 <= j < k && Kept(items, j) ==> !Refused(items[j])
      invariant forall key :: key in seen <==> exists j :: 0 <= j < k && items[j].keyword == Some(key)
      invariant observations == before + OfRow(row, k)
      invariant Grouped(observations, grouped)
    {
      if items[k].keyword.None? || items[k].keyword.value in seen { continue; }
      seen := seen + {items[k].keyword.value};
      assert Kept(items, k);
      if Refused(items[k]) { return None; }
      observations, grouped := Add(observations, grouped, Observe(row, k));
    }
    return Some((observations, grouped));
  }

  method Add(observations: seq<Observation>, grouped: map<Keyword, seq<Observation>>, o: Observation)
    returns (more: seq<Observation>, byKeyword: map<Keyword, seq<Observation>>)
    requires Grouped(observations, grouped)
    ensures more == observations + [o] && Grouped(more, byKeyword)
  {
    GroupGrows(observations, o, grouped);
    more := observations + [o];
    byKeyword := grouped[o.keyword := (if o.keyword in grouped then grouped[o.keyword] else []) + [o]];
  }

  /** The nested loops over rows and their keywords; None where the source raises. */
  method ReadObservations(rows: seq<Row>)
    returns (read: Option<(seq<Observation>, map<Keyword, seq<Observation>>)>, sourceLimit: nat)
    ensures read.Some? <==> forall i :: 0 <= i < |rows| ==> Sound(rows[i])
    ensures read.Some? ==> read.value.0 == OfRows(rows) && sourceLimit == SourceLimit(rows)
    ensures read.Some? ==> Grouped(read.value.0, read.value.1)
  {
    var grouped: map<Keyword, seq<Observation>> := map[];
    var observations: seq<Observation> := [];
    sourceLimit := 0;
    for i := 0 to |rows|
      invariant forall j :: 0 <= j < i ==> Sound(rows[j])
      invariant observations == OfRows(rows[..i]) && sourceLimit == SourceLimit(rows[..i])
      invariant Grouped(observations, grouped)
    {
      hide Grouped, OfRow, Kept, Refused;
      var row := rows[i];
      assert rows[..i + 1][..i] == rows[..i];
      if (row.visits.Some? && row.traffic.None?) || (row.traffic.Some? && row.traffic.value.keywords.None?) {
        return None, 0;
      }
      var more := ReadKeywords(row, observations, grouped);
      if more.None? { return None, 0; }
      sourceLimit := if |Items(row)| > sourceLimit then |Items(row)| else sourceLimit;
      observations, grouped := more.value.0, more.value.1;
    }
    assert rows[..|rows|] == rows;
    return Some((observations, grouped)), sourceLimit;
  }

  lemma GroupGrows(obs: seq<Observation>, o: Observation, grouped: map<Keyword, seq<Observation>>)
    requires Grouped(obs, grouped)
    ensures Keywords(obs + [o]) == Keywords(obs) + {o.keyword}
    ensures forall key :: key in grouped && key != o.keyword ==> Group(obs + [o], key) == grouped[key]
    ensures Group(obs + [o], o.keyword) == (if o.keyword in grouped then grouped[o.keyword] else []) + [o]
  {
    assert (obs + [o])[..|obs|] == obs;
    OfIsAFilter(obs, KeywordOf, o.keyword);
    assert |Group(obs, o.keyword)| > 0 ==> Group(obs, o.keyword)[0] in obs;
  }

  method SplitByTerm(group: seq<Observation>) returns (totals: map<Term, seq<Observation>>)
    ensures totals.Keys == Terms(group)
    ensures forall term :: term in totals ==> totals[term] == Members(group, term)
  {
    totals := map[];
    for i := 0 to |group|
      invariant totals.Keys == Terms(group[..i])
      invariant forall term :: term in totals ==> totals[term] == Members(group[..i], term)
    {
      var o := group[i];
      assert group[..i + 1][..i] == group[..i];
      assert forall x :: x in group[..i + 1] <==> x in group[..i] || x == o;
      if o.term.Some? {
        var term := o.term.value;
        if term !in totals { NoMembers(group[..i], term); }
        totals := totals[term := (if term in totals then totals[term] else []) + [o]];
      }
    }
    assert group[..|group|] == group;
  }

  lemma {:induction false} NoMembers(group: seq<Observation>, term: Term)
    requires term !in Terms(group)
    ensures Members(group, term) == []
  {
    if group != [] {
      assert forall o :: o in group[..|group| - 1] ==> o in group;
      NoMembers(group[..|group| - 1], term);
    }
  }

  method ChoosePrimary(group: seq<Observation>, totals: map<Term, seq<Observation>>) returns (primary: Option<Term>)
    requires totals.Keys == Terms(group)
    requires forall term :: term in totals ==> totals[term] == Members(group, term)
    ensures IsPrimary(group, primary)
  {
    primary := None;
    var rest := totals.Keys;
    while rest != {}
      invariant rest <= totals.Keys
      invariant primary.None? ==> rest == totals.Keys
      invariant primary.Some? ==> primary.value in totals
      invariant primary.Some? ==> forall t :: t in totals && t !in rest ==> Ahead(group, primary.value, t)
      decreases |rest|
    {
      var term :| term in rest;
      rest := rest - {term};
      if primary.None? || !Ahead(group, primary.value, term) { primary := Some(term); }
    }
  }

  lemma OneMoreKeyword(metrics: seq<Metric>, metric: Metric, obs: seq<Observation>, sectors: map<Term, Sector>,
                       keys: seq<Keyword>, key: Keyword)
    requires MetricsFit(metrics, obs, sectors, keys) && MetricFits(metric, obs, sectors, key)
    ensures MetricsFit(metrics + [metric], obs, sectors, keys + [key])
    ensures AllTermRows(obs, keys + [key]) == AllTermRows(obs, keys) + TermRows(Group(obs, key), key)
  {
    hide MetricFits, TermRows;
    assert (keys + [key])[..|keys|] == keys;
  }

  lemma OneMoreListed(keys: seq<nat>, rest: set<nat>)
    requires rest != {}
    ensures keys + Ordered(rest) == (keys + [Least(rest)]) + Ordered(rest - {Least(rest)})
  {
  }

  /** The loop over grouped keywords, with the loop over each one's terms. */
  method Project(observations: seq<Observation>, grouped: map<Keyword, seq<Observation>>, sectors: map<Term, Sector>)
    returns (metrics: seq<Metric>, terms: seq<TermRow>)
    requires Grouped(observations, grouped)
    ensures MetricsFit(metrics, observations, sectors, Ordered(Keywords(observations)))
    ensures terms == AllTermRows(observations, Ordered(Keywords(observations)))
  {
    metrics, terms := [], [];
    ghost var keys := [];
    var rest := grouped.Keys;
    while rest != {}
      invariant rest <= grouped.Keys && keys + Ordered(rest) == Ordered(grouped.Keys)
      invariant MetricsFit(metrics, observations, sectors, keys)
      invariant terms == AllTermRows(observations, keys)
      decreases |rest|
    {
      hide Least, Ordered, MetricFits, TermRows, MetricsFit, AllTermRows, Keywords;
      OneMoreListed(keys, rest);
      var key := TakeLeast(rest);
      rest := rest - {key};
      var metric, rows := ProjectKeyword(key, observations, grouped[key], sectors);
      OneMoreKeyword(metrics, metric, observations, sectors, keys, key);
      metrics, terms := metrics + [metric], terms + rows;
      keys := keys + [key];
    }
    assert keys + Ordered(rest) == keys;
  }

  method ProjectKeyword(key: Keyword, ghost observations: seq<Observation>, group: seq<Observation>, sectors: map<Term, Sector>)
    returns (metric: Metric, rows: seq<TermRow>)
    requires group == Group(observations, key)
    ensures MetricFits(metric, observations, sectors, key) && rows == TermRows(group, key)
  {
    var totals := SplitByTerm(group);
    var primary := ChoosePrimary(group, totals);
    metric := Metric(key, primary, Sum(group, TrafficOf), Largest(group, VolumeOf), |group|, |Markets(group, sectors)|,
                     Largest(group, CaptureOf));
    rows := ProjectTerms(key, group, totals);
  }

  method ProjectTerms(key: Keyword, group: seq<Observation>, totals: map<Term, seq<Observation>>) returns (rows: seq<TermRow>)
    requires totals.Keys == Terms(group)
    requires forall term :: term in totals ==> totals[term] == Members(group, term)
    ensures rows == TermRows(group, key)
  {
    rows := [];
    ghost var terms := [];
    var rest := totals.Keys;
    while rest != {}
      invariant rest <= totals.Keys && terms + Ordered(rest) == Ordered(totals.Keys)
      invariant |rows| == |terms| && forall i :: 0 <= i < |terms| ==> rows[i] == TermRowOf(group, key, terms[i])
      decreases |rest|
    {
      var term := TakeLeast(rest);
      assert terms + Ordered(rest) == terms + [term] + Ordered(rest - {term});
      rest := rest - {term};
      var members := totals[term];
      rows := rows + [TermRow(key, term, Sum(members, TrafficOf), |members|, Largest(members, CaptureOf))];
      terms := terms + [term];
    }
    assert terms + Ordered(rest) == terms;
  }

  method MakePlan(rows: seq<Row>, sectors: map<Term, Sector>) returns (plan: Option<Plan>)
    ensures plan.Some? <==> (forall i :: 0 <= i < |rows| ==> Sound(rows[i])) && OfRows(rows) != []
    ensures plan.Some? ==> PlanFits(plan.value, rows, sectors)
  {
    var read, sourceLimit := ReadObservations(rows);
    if read.None? || read.value.0 == [] { return None; }
    var observations, grouped := read.value.0, read.value.1;
    var metrics, terms := Project(observations, grouped, sectors);
    OrderedLists(Keywords(observations));
    var summary := Summary(|metrics|, |Domains(observations)|, |Products(observations)|, |Markets(observations, sectors)|,
                           sourceLimit, Largest(observations, CaptureOf), |observations|, |terms|, Sum(observations, TrafficOf));
    return Some(Plan(observations, metrics, terms, summary));
  }
}

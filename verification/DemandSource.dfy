/** What a plan says of the rows it was read from: each usable entry once, and each total over the entries it stands for. */
module DemandSource {
  import opened Prelude
  import opened DemandPlan

  /** The entry at a position of a row. */
  datatype Place = Place(row: nat, at: nat)

  predicate Lies(rows: seq<Row>, p: Place) {
    p.row < |rows| && rows[p.row].traffic.Some? && rows[p.row].traffic.value.keywords.Some?
    && p.at < |rows[p.row].traffic.value.keywords.value|
  }

  function EntryAt(rows: seq<Row>, p: Place): Item
    requires Lies(rows, p)
  {
    rows[p.row].traffic.value.keywords.value[p.at]
  }

  /** The first entry of the keyword in its row. */
  predicate Names(rows: seq<Row>, p: Place, key: Keyword) {
    Lies(rows, p) && EntryAt(rows, p).keyword == Some(key)
    && forall j :: 0 <= j < p.at ==> rows[p.row].traffic.value.keywords.value[j].keyword != Some(key)
  }

  /** Rounded half up; nothing and less than nothing count as 0. */
  predicate Rounds(value: Option<real>, n: nat) {
    if value.None? || value.value < 0.0 then n == 0 else n as real <= value.value + 0.5 < n as real + 1.0
  }

  /** The observation says what its entry and its row say. */
  predicate Says(o: Observation, rows: seq<Row>, p: Place) {
    Lies(rows, p) &&
    var row, item := rows[p.row], EntryAt(rows, p);
    && Names(rows, p, o.keyword) && o.product == row.product && o.term == row.term && o.domain == row.domain
    && o.position == p.at + 1 && o.snapshot == row.traffic.value.snapshot && o.capturedAt == row.traffic.value.capturedAt
    && Rounds(item.traffic, o.traffic) && Rounds(item.volume, o.volume)
    && o.cpc == if item.cpc.Some? && item.cpc.value >= 0.0 then item.cpc else None
  }

  predicate Before(p: Place, q: Place) { p.row < q.row || (p.row == q.row && p.at < q.at) }

  predicate InOrder(places: seq<Place>) { forall i, j :: 0 <= i < j < |places| ==> Before(places[i], places[j]) }

  /** One observation for each place, in the same order. */
  predicate Match(obs: seq<Observation>, rows: seq<Row>, places: seq<Place>) {
    |obs| == |places| && forall n :: 0 <= n < |obs| ==> Says(obs[n], rows, places[n])
  }

  lemma WholeRounds(value: Option<real>, n: nat)
    ensures Rounds(value, n) <==> n == Whole(value)
  {
  }

  // ---------- every usable entry once ----------

  lemma {:induction false} RowMatches(rows: seq<Row>, i: nat, n: nat) returns (places: seq<Place>)
    requires i < |rows| && n <= |Items(rows[i])|
    ensures Match(OfRow(rows[i], n), rows, places) && InOrder(places)
    ensures forall p :: p in places <==> p.row == i && p.at < n && exists key :: Names(rows, p, key)
  {
    if n == 0 {
      places := [];
    } else {
      places := RowMatches(rows, i, n - 1);
      var p := Place(i, n - 1);
      var item := Items(rows[i])[n - 1];
      assert Lies(rows, p) && EntryAt(rows, p) == item;
      assert Kept(Items(rows[i]), n - 1) <==> exists key :: Names(rows, p, key) by {
        if Kept(Items(rows[i]), n - 1) { assert Names(rows, p, item.keyword.value); }
      }
      if Kept(Items(rows[i]), n - 1) {
        WholeRounds(item.traffic, Whole(item.traffic));
        WholeRounds(item.volume, Whole(item.volume));
        assert Says(Observe(rows[i], n - 1), rows, p);
        assert forall q :: q in places ==> Before(q, p);
        places := places + [p];
      }
    }
  }

  lemma MatchJoins(a: seq<Observation>, b: seq<Observation>, rows: seq<Row>, p: seq<Place>, q: seq<Place>)
    requires Match(a, rows, p) && Match(b, rows, q)
    ensures Match(a + b, rows, p + q)
  {
    hide Says;
  }

  lemma OrderJoins(p: seq<Place>, q: seq<Place>)
    requires InOrder(p) && InOrder(q) && forall x, y :: x in p && y in q ==> Before(x, y)
    ensures InOrder(p + q)
  {
    hide Before;
    var all := p + q;
    forall i, j | 0 <= i < j < |all| ensures Before(all[i], all[j]) {
      if i < |p| <= j { assert all[i] in p && all[j] in q; }
    }
  }

  /** The observations of a source and its usable entries correspond one to one and in order. */
  lemma {:induction false} ObservationsAreEntries(rows: seq<Row>, m: nat) returns (places: seq<Place>)
    requires m <= |rows|
    ensures Match(OfRows(rows[..m]), rows, places) && InOrder(places)
    ensures forall p :: p in places <==> p.row < m && exists key :: Names(rows, p, key)
  {
    if m == 0 {
      places := [];
    } else {
      var front := ObservationsAreEntries(rows, m - 1);
      var last := RowMatches(rows, m - 1, |Items(rows[m - 1])|);
      assert rows[..m][..m - 1] == rows[..m - 1];
      places := front + last;
      hide Match, OfRow, Names, InOrder;
      MatchJoins(OfRows(rows[..m - 1]), OfRow(rows[m - 1], |Items(rows[m - 1])|), rows, front, last);
      OrderJoins(front, last);
      forall p ensures p in places <==> p.row < m && exists key :: Names(rows, p, key) {
        if p.row == m - 1 && exists key :: Names(rows, p, key) { NamesLie(rows, p); }
      }
    }
  }

  lemma NamesLie(rows: seq<Row>, p: Place)
    ensures (exists key :: Names(rows, p, key)) ==> Lies(rows, p) && p.at < |Items(rows[p.row])|
  {
  }

  // ---------- groups of entries ----------

  /** Entries of the source, in order. */
  predicate Fits(rows: seq<Row>, places: seq<Place>) { forall n :: 0 <= n < |places| ==> Lies(rows, places[n]) }

  function WithTerm(rows: seq<Row>, places: seq<Place>, term: Option<Term>): (sub: seq<Place>)
    requires Fits(rows, places)
    ensures Fits(rows, sub) && forall p :: p in sub <==> p in places && rows[p.row].term == term
  {
    if places == [] then []
    else
      var last := places[|places| - 1];
      var before := WithTerm(rows, places[..|places| - 1], term);
      if rows[last.row].term == term then before + [last] else before
  }

  function TrafficTotal(rows: seq<Row>, places: seq<Place>): nat
    requires Fits(rows, places)
  {
    if places == [] then 0
    else TrafficTotal(rows, places[..|places| - 1]) + Whole(EntryAt(rows, places[|places| - 1]).traffic)
  }

  lemma MatchFits(obs: seq<Observation>, rows: seq<Row>, places: seq<Place>)
    requires Match(obs, rows, places)
    ensures Fits(rows, places)
  {
    forall n | 0 <= n < |places| ensures Lies(rows, places[n]) { assert Says(obs[n], rows, places[n]); }
  }

  /** One keyword's observations and its entries. */
  lemma {:induction false} GroupMatches(obs: seq<Observation>, rows: seq<Row>, places: seq<Place>, key: Keyword)
    returns (sub: seq<Place>)
    requires Match(obs, rows, places) && InOrder(places)
    ensures Match(Group(obs, key), rows, sub) && InOrder(sub)
    ensures forall p :: p in sub <==> p in places && Names(rows, p, key)
  {
    if obs == [] {
      sub := [];
    } else {
      var last := |obs| - 1;
      sub := GroupMatches(obs[..last], rows, places[..last], key);
      assert Says(obs[last], rows, places[last]);
      assert obs[last].keyword == key <==> Names(rows, places[last], key);
      assert forall p :: p in places <==> p in places[..last] || p == places[last];
      hide Says, Names;
      if obs[last].keyword == key {
        forall p | p in sub ensures Before(p, places[last]) {
          var n :| 0 <= n < last && places[n] == p;
        }
        sub := sub + [places[last]];
      }
    }
  }

  lemma {:induction false} MembersMatch(obs: seq<Observation>, rows: seq<Row>, places: seq<Place>, term: Option<Term>)
    requires Match(obs, rows, places)
    ensures Fits(rows, places) && Match(Of(obs, TermOf, term), rows, WithTerm(rows, places, term))
  {
    MatchFits(obs, rows, places);
    if obs != [] {
      var last := |obs| - 1;
      MembersMatch(obs[..last], rows, places[..last], term);
      assert Says(obs[last], rows, places[last]);
      assert obs[last].term == rows[places[last].row].term;
      hide Says, Lies;
    }
  }

  lemma {:induction false} MatchTotals(obs: seq<Observation>, rows: seq<Row>, places: seq<Place>)
    requires Match(obs, rows, places)
    ensures Fits(rows, places) && Sum(obs, TrafficOf) == TrafficTotal(rows, places)
  {
    MatchFits(obs, rows, places);
    if obs != [] {
      var last := |obs| - 1;
      MatchTotals(obs[..last], rows, places[..last]);
      assert Says(obs[last], rows, places[last]);
      WholeRounds(EntryAt(rows, places[last]).traffic, obs[last].traffic);
    }
  }

  lemma {:induction false} LargestIsLargest<T>(xs: seq<T>, weight: T -> nat)
    ensures forall x :: x in xs ==> weight(x) <= Largest(xs, weight)
    ensures if xs == [] then Largest(xs, weight) == 0 else exists x :: x in xs && weight(x) == Largest(xs, weight)
  {
    if xs != [] {
      var front, last := xs[..|xs| - 1], xs[|xs| - 1];
      LargestIsLargest(front, weight);
      assert forall x :: x in xs <==> x in front || x == last;
      if weight(last) <= Largest(front, weight) && front != [] {
        var x :| x in front && weight(x) == Largest(front, weight);
        assert x in xs;
      } else {
        assert last in xs;
      }
    }
  }

  /** The largest of what entries measure, and reached. */
  ghost predicate IsMost(rows: seq<Row>, places: seq<Place>, measure: (Row, Item) -> nat, most: nat)
    requires Fits(rows, places)
  {
    && (forall n :: 0 <= n < |places| ==> measure(rows[places[n].row], EntryAt(rows, places[n])) <= most)
    && (exists n :: 0 <= n < |places| && measure(rows[places[n].row], EntryAt(rows, places[n])) == most)
  }

  function VolumeAt(row: Row, item: Item): nat { Whole(item.volume) }

  function CapturedAt(row: Row, item: Item): nat { if row.traffic.Some? then row.traffic.value.capturedAt else 0 }

  lemma LargestMatches(obs: seq<Observation>, rows: seq<Row>, places: seq<Place>, weight: Observation -> nat, measure: (Row, Item) -> nat)
    requires Fits(rows, places) && |obs| == |places| && obs != []
    requires forall n :: 0 <= n < |obs| ==> measure(rows[places[n].row], EntryAt(rows, places[n])) == weight(obs[n])
    ensures IsMost(rows, places, measure, Largest(obs, weight))
  {
    LargestIsLargest(obs, weight);
    hide EntryAt;
    assert forall n :: 0 <= n < |obs| ==> obs[n] in obs;
    var x :| x in obs && weight(x) == Largest(obs, weight);
    var n :| 0 <= n < |obs| && obs[n] == x;
    assert measure(rows[places[n].row], EntryAt(rows, places[n])) == Largest(obs, weight);
  }

  lemma MatchLargest(obs: seq<Observation>, rows: seq<Row>, places: seq<Place>)
    requires Match(obs, rows, places) && obs != []
    ensures Fits(rows, places)
    ensures IsMost(rows, places, VolumeAt, Largest(obs, VolumeOf)) && IsMost(rows, places, CapturedAt, Largest(obs, CaptureOf))
  {
    MatchFits(obs, rows, places);
    forall n | 0 <= n < |obs|
      ensures VolumeAt(rows[places[n].row], EntryAt(rows, places[n])) == VolumeOf(obs[n])
      ensures CapturedAt(rows[places[n].row], EntryAt(rows, places[n])) == CaptureOf(obs[n])
    {
      assert Says(obs[n], rows, places[n]);
      WholeRounds(EntryAt(rows, places[n]).volume, obs[n].volume);
    }
    hide Match, Fits, VolumeAt, CapturedAt, Largest, VolumeOf, CaptureOf, IsMost;
    LargestMatches(obs, rows, places, VolumeOf, VolumeAt);
    LargestMatches(obs, rows, places, CaptureOf, CapturedAt);
  }

  // ---------- metrics ----------

  /** All entries of a keyword, in order. */
  ghost predicate AreEntriesOf(rows: seq<Row>, places: seq<Place>, key: Keyword) {
    InOrder(places) && Fits(rows, places) && forall p :: p in places <==> Names(rows, p, key)
  }

  /** More traffic, or as much and a lower id. */
  predicate Outdoes(x: nat, y: nat, a: Term, b: Term) { x > y || (x == y && a <= b) }

  /** The term with most traffic among the entries', the lowest id among equals; none exactly if none of them has a term. */
  ghost predicate TellsPrimary(rows: seq<Row>, places: seq<Place>, primary: Option<Term>)
    requires Fits(rows, places)
  {
    match primary
    case None => forall n :: 0 <= n < |places| ==> rows[places[n].row].term.None?
    case Some(t) =>
      && WithTerm(rows, places, Some(t)) != []
      && forall u :: WithTerm(rows, places, Some(u)) != [] ==>
           Outdoes(TrafficTotal(rows, WithTerm(rows, places, Some(t))), TrafficTotal(rows, WithTerm(rows, places, Some(u))), t, u)
  }

  function MarketsOf(rows: seq<Row>, places: seq<Place>, sectors: map<Term, Sector>): set<Sector>
    requires Fits(rows, places)
  {
    set n | 0 <= n < |places| && rows[places[n].row].term.Some? && rows[places[n].row].term.value in sectors ::
      sectors[rows[places[n].row].term.value]
  }

  lemma PrimaryMatches(group: seq<Observation>, rows: seq<Row>, places: seq<Place>, primary: Option<Term>)
    requires Match(group, rows, places) && IsPrimary(group, primary)
    ensures Fits(rows, places) && TellsPrimary(rows, places, primary)
  {
    MatchFits(group, rows, places);
    if primary.None? {
      TermsTell(group);
      forall n | 0 <= n < |places| ensures rows[places[n].row].term.None? { assert Says(group[n], rows, places[n]) && group[n] in group; }
    } else {
      TermIsMatched(group, rows, places, primary.value);
      forall u | WithTerm(rows, places, Some(u)) != []
        ensures Outdoes(TrafficTotal(rows, WithTerm(rows, places, Some(primary.value))),
                        TrafficTotal(rows, WithTerm(rows, places, Some(u))), primary.value, u)
      {
        TermIsMatched(group, rows, places, u);
        assert Ahead(group, primary.value, u);
      }
    }
  }

  /** A term of the group, its observations and its entries. */
  lemma TermIsMatched(group: seq<Observation>, rows: seq<Row>, places: seq<Place>, term: Term)
    requires Match(group, rows, places)
    ensures Fits(rows, places)
    ensures var sub := WithTerm(rows, places, Some(term));
      && Match(Members(group, term), rows, sub) && (term in Terms(group) <==> sub != [])
      && Sum(Members(group, term), TrafficOf) == TrafficTotal(rows, sub)
  {
    MembersMatch(group, rows, places, Some(term));
    MatchTotals(Members(group, term), rows, WithTerm(rows, places, Some(term)));
    OfIsAFilter(group, TermOf, Some(term));
    assert Members(group, term) != [] ==> Members(group, term)[0] in Members(group, term);
    if term in Terms(group) {
      var o :| o in group && o.term == Some(term);
      assert o in Members(group, term);
    }
  }

  lemma TermsTell(group: seq<Observation>)
    ensures Terms(group) == {} ==> forall o :: o in group ==> o.term.None?
  {
    forall o | o in group && o.term.Some? ensures o.term.value in Terms(group) {}
  }

  lemma MarketsMatch(group: seq<Observation>, rows: seq<Row>, places: seq<Place>, sectors: map<Term, Sector>)
    requires Match(group, rows, places)
    ensures Fits(rows, places) && Markets(group, sectors) == MarketsOf(rows, places, sectors)
  {
    MatchFits(group, rows, places);
    forall n | 0 <= n < |places| ensures group[n].term == rows[places[n].row].term { assert Says(group[n], rows, places[n]); }
    hide Match, Fits, Says;
    forall s | s in Markets(group, sectors) ensures s in MarketsOf(rows, places, sectors) {
      var o :| o in group && o.term.Some? && o.term.value in sectors && sectors[o.term.value] == s;
      var n :| 0 <= n < |group| && group[n] == o;
      assert sectors[rows[places[n].row].term.value] == s;
    }
    forall s | s in MarketsOf(rows, places, sectors) ensures s in Markets(group, sectors) {
      var n :| 0 <= n < |places| && rows[places[n].row].term.Some? && rows[places[n].row].term.value in sectors
               && sectors[rows[places[n].row].term.value] == s;
      assert group[n] in group;
    }
  }

  /** A keyword of the source, its group and all its entries. */
  lemma KeywordMatches(rows: seq<Row>, key: Keyword) returns (places: seq<Place>)
    ensures AreEntriesOf(rows, places, key) && Match(Group(OfRows(rows), key), rows, places)
  {
    var all := ObservationsAreEntries(rows, |rows|);
    assert rows[..|rows|] == rows;
    places := GroupMatches(OfRows(rows), rows, all, key);
    MatchFits(Group(OfRows(rows), key), rows, places);
  }

  /** A metric, over all entries of its keyword: summed, largest, counted. */
  lemma MetricTells(plan: Plan, rows: seq<Row>, sectors: map<Term, Sector>, i: nat) returns (places: seq<Place>)
    requires PlanFits(plan, rows, sectors) && i < |plan.metrics|
    ensures var m := plan.metrics[i];
      && AreEntriesOf(rows, places, m.keyword) && places != []
      && m.traffic == TrafficTotal(rows, places) && m.products == |places|
      && IsMost(rows, places, VolumeAt, m.volume) && IsMost(rows, places, CapturedAt, m.capturedAt)
      && m.markets == |MarketsOf(rows, places, sectors)| && TellsPrimary(rows, places, m.term)
  {
    var obs, keys := plan.observations, Ordered(Keywords(plan.observations));
    var key := keys[i];
    OrderedLists(Keywords(obs));
    assert MetricFits(plan.metrics[i], obs, sectors, key);
    var group := Group(obs, key);
    assert key in keys;
    KeywordIsNamed(rows, key);
    hide Ordered, Names, IsPrimary, Sum, Of, Largest, Markets, AllTermRows, Match, TellsPrimary, IsMost, AreEntriesOf, MarketsOf, TrafficTotal;
    places := KeywordMatches(rows, key);
    MatchTotals(group, rows, places);
    MatchLargest(group, rows, places);
    PrimaryMatches(group, rows, places, plan.metrics[i].term);
    MarketsMatch(group, rows, places, sectors);
    assert |group| == |places| by { MatchCounts(group, rows, places); }
  }

  lemma MatchCounts(obs: seq<Observation>, rows: seq<Row>, places: seq<Place>)
    requires Match(obs, rows, places)
    ensures |obs| == |places|
  {
  }

  lemma KeywordIsNamed(rows: seq<Row>, key: Keyword)
    ensures (exists p :: Names(rows, p, key)) <==> Group(OfRows(rows), key) != []
    ensures Group(OfRows(rows), key) != [] <==> key in Keywords(OfRows(rows))
  {
    var obs := OfRows(rows);
    var places := KeywordMatches(rows, key);
    MatchCounts(Group(obs, key), rows, places);
    OfIsAFilter(obs, KeywordOf, key);
    hide Names, Match, Of;
    assert places != [] ==> places[0] in places;
    assert Group(obs, key) != [] ==> Group(obs, key)[0] in Group(obs, key);
    if key in Keywords(obs) {
      var o :| o in obs && o.keyword == key;
      assert o in Group(obs, key);
    }
  }

  /** Exactly the keywords of the source have a metric, in order and once each. */
  lemma MetricsNameTheSource(plan: Plan, rows: seq<Row>, sectors: map<Term, Sector>, key: Keyword)
    requires PlanFits(plan, rows, sectors)
    ensures (exists p :: Names(rows, p, key)) <==> exists i :: 0 <= i < |plan.metrics| && plan.metrics[i].keyword == key
    ensures forall i, j :: 0 <= i < j < |plan.metrics| ==> plan.metrics[i].keyword < plan.metrics[j].keyword
  {
    var obs, keys := plan.observations, Ordered(Keywords(plan.observations));
    OrderedLists(Keywords(obs));
    KeywordIsNamed(rows, key);
    forall i | 0 <= i < |keys| ensures plan.metrics[i].keyword == keys[i] && keys[i] in keys {
      assert MetricFits(plan.metrics[i], obs, sectors, keys[i]);
    }
    hide Ordered, Names, MetricFits, Of, AllTermRows;
    if key in keys {
      var i :| 0 <= i < |keys| && keys[i] == key;
      assert plan.metrics[i].keyword == key;
    }
  }

  // ---------- term rows ----------

  lemma {:induction false} TermRowsListed(obs: seq<Observation>, keys: seq<Keyword>, r: TermRow)
    ensures r in AllTermRows(obs, keys) <==>
      r.keyword in keys && r.term in Terms(Group(obs, r.keyword)) && r == TermRowOf(Group(obs, r.keyword), r.keyword, r.term)
  {
    if keys != [] {
      var front, last := keys[..|keys| - 1], keys[|keys| - 1];
      TermRowsListed(obs, front, r);
      assert keys == front + [last];
      var terms := Ordered(Terms(Group(obs, last)));
      OrderedLists(Terms(Group(obs, last)));
      var rows := TermRows(Group(obs, last), last);
      hide Ordered, Group, Terms;
      assert forall i :: 0 <= i < |terms| ==> rows[i] == TermRowOf(Group(obs, last), last, terms[i]) && terms[i] in terms;
      if r.keyword == last && r.term in terms {
        var i :| 0 <= i < |terms| && terms[i] == r.term;
        assert rows[i] == TermRowOf(Group(obs, last), last, r.term) && rows[i] in rows;
      }
    }
  }

  /** A term row, over all entries of its keyword whose row has the term; there is one exactly where there are such entries. */
  lemma TermRowsTell(plan: Plan, rows: seq<Row>, sectors: map<Term, Sector>, key: Keyword, term: Term) returns (places: seq<Place>)
    requires PlanFits(plan, rows, sectors)
    ensures AreEntriesOf(rows, places, key)
    ensures var sub := WithTerm(rows, places, Some(term));
      && (sub != [] <==> exists r :: r in plan.terms && r.keyword == key && r.term == term)
      && forall r :: r in plan.terms && r.keyword == key && r.term == term ==>
           r.traffic == TrafficTotal(rows, sub) && r.products == |sub| && IsMost(rows, sub, CapturedAt, r.capturedAt)
  {
    var obs, keys := plan.observations, Ordered(Keywords(plan.observations));
    var group := Group(obs, key);
    OrderedLists(Keywords(obs));
    places := KeywordMatches(rows, key);
    TermIsMatched(group, rows, places, term);
    KeywordIsNamed(rows, key);
    var sub, members, row := WithTerm(rows, places, Some(term)), Members(group, term), TermRowOf(group, key, term);
    MatchCounts(members, rows, sub);
    assert term in Terms(group) ==> group != [];
    hide Ordered, Names, IsMost, Match, Of, MetricFits, Sum, Largest, TrafficTotal, AreEntriesOf, WithTerm, Terms;
    TermRowsListed(obs, keys, row);
    forall r | r in plan.terms && r.keyword == key && r.term == term ensures r == row && term in Terms(group) { TermRowsListed(obs, keys, r); }
    if sub != [] { MatchLargest(members, rows, sub); }
  }

  // ---------- observations and the summary ----------

  /** The observations of a plan are the usable entries of the source, each once and in order. */
  lemma PlanTellsSource(plan: Plan, rows: seq<Row>, sectors: map<Term, Sector>) returns (places: seq<Place>)
    requires PlanFits(plan, rows, sectors)
    ensures Match(plan.observations, rows, places) && InOrder(places)
    ensures forall p :: p in places <==> exists key :: Names(rows, p, key)
  {
    places := ObservationsAreEntries(rows, |rows|);
    assert rows[..|rows|] == rows;
    forall p ensures (exists key :: Names(rows, p, key)) ==> p.row < |rows| { NamesLie(rows, p); }
  }

  /** The summary counts the entries, their products and domains, and the longest list of the source. */
  lemma SummaryTells(plan: Plan, rows: seq<Row>, sectors: map<Term, Sector>) returns (places: seq<Place>)
    requires PlanFits(plan, rows, sectors)
    ensures Match(plan.observations, rows, places) && Fits(rows, places)
    ensures forall p :: p in places <==> exists key :: Names(rows, p, key)
    ensures var s := plan.summary;
      && s.observations == |places| && s.traffic == TrafficTotal(rows, places) && IsMost(rows, places, CapturedAt, s.capturedAt)
      && s.products == |ProductsOf(rows, places)|
      && s.domains == |DomainsOf(rows, places)|
      && s.markets == |MarketsOf(rows, places, sectors)|
      && s.terms == |plan.metrics| && s.termRows == |plan.terms|
      && (forall i :: 0 <= i < |rows| ==> |Items(rows[i])| <= s.sourceLimit)
      && exists i :: 0 <= i < |rows| && |Items(rows[i])| == s.sourceLimit
  {
    places := PlanTellsSource(plan, rows, sectors);
    var obs := plan.observations;
    MatchCounts(obs, rows, places);
    MatchTotals(obs, rows, places);
    MatchLargest(obs, rows, places);
    MarketsMatch(obs, rows, places, sectors);
    SetsMatch(obs, rows, places);
    LargestIsLargest(rows, ItemCount);
    assert rows != [];
    hide Match, Names, AllTermRows, Ordered, Sum, Largest, Markets, MarketsOf, IsMost, TrafficTotal, Products, Domains, ProductsOf, DomainsOf, Fits;
    assert forall i :: 0 <= i < |rows| ==> rows[i] in rows && ItemCount(rows[i]) == |Items(rows[i])|;
    var row :| row in rows && ItemCount(row) == Largest(rows, ItemCount);
    var i :| 0 <= i < |rows| && rows[i] == row;
    assert |Items(rows[i])| == plan.summary.sourceLimit;
  }

  function ProductsOf(rows: seq<Row>, places: seq<Place>): set<Product>
    requires Fits(rows, places)
  {
    set n | 0 <= n < |places| :: rows[places[n].row].product
  }

  function DomainsOf(rows: seq<Row>, places: seq<Place>): set<Domain>
    requires Fits(rows, places)
  {
    set n | 0 <= n < |places| :: rows[places[n].row].domain
  }

  lemma SetsMatch(obs: seq<Observation>, rows: seq<Row>, places: seq<Place>)
    requires Match(obs, rows, places)
    ensures Fits(rows, places) && Products(obs) == ProductsOf(rows, places) && Domains(obs) == DomainsOf(rows, places)
  {
    MatchFits(obs, rows, places);
    forall n | 0 <= n < |obs|
      ensures obs[n] in obs && obs[n].product in ProductsOf(rows, places) && obs[n].domain in DomainsOf(rows, places)
      ensures rows[places[n].row].product in Products(obs) && rows[places[n].row].domain in Domains(obs)
    {
      assert Says(obs[n], rows, places[n]);
      assert obs[n].product == rows[places[n].row].product && obs[n].domain == rows[places[n].row].domain;
    }
    hide Match, Says;
    forall o | o in obs ensures o.product in ProductsOf(rows, places) && o.domain in DomainsOf(rows, places) {
      var n :| 0 <= n < |obs| && obs[n] == o;
    }
  }

  // ---------- when there is a plan ----------

  predicate Safe(value: Option<real>) { value.Some? ==> value.value <= 9007199254740991.0 }

  /** No published visits without a source document, no document that is not a list, no usable number out of range. */
  ghost predicate Readable(rows: seq<Row>) {
    && (forall i :: 0 <= i < |rows| ==> (rows[i].visits.Some? ==> rows[i].traffic.Some?))
    && (forall i :: 0 <= i < |rows| && rows[i].traffic.Some? ==> rows[i].traffic.value.keywords.Some?)
    && forall p, key :: Names(rows, p, key) ==>
         Safe(EntryAt(rows, p).traffic) && Safe(EntryAt(rows, p).volume) && Safe(EntryAt(rows, p).cpc)
  }

  lemma RowIsSound(rows: seq<Row>, i: nat)
    requires i < |rows| && Readable(rows)
    ensures Sound(rows[i])
  {
    forall k | 0 <= k < |Items(rows[i])| && Kept(Items(rows[i]), k) ensures !Refused(Items(rows[i])[k]) {
      assert Names(rows, Place(i, k), Items(rows[i])[k].keyword.value);
    }
  }

  lemma EntryIsSafe(rows: seq<Row>, p: Place, key: Keyword)
    requires Names(rows, p, key) && Sound(rows[p.row])
    ensures Safe(EntryAt(rows, p).traffic) && Safe(EntryAt(rows, p).volume) && Safe(EntryAt(rows, p).cpc)
  {
    assert Items(rows[p.row])[p.at] == EntryAt(rows, p) && Kept(Items(rows[p.row]), p.at);
  }

  lemma SoundIsWhole(row: Row)
    requires Sound(row)
    ensures (row.visits.Some? ==> row.traffic.Some?) && (row.traffic.Some? ==> row.traffic.value.keywords.Some?)
  {
  }

  lemma SoundMeansReadable(rows: seq<Row>)
    ensures (forall i :: 0 <= i < |rows| ==> Sound(rows[i])) <==> Readable(rows)
  {
    hide Sound, Safe;
    if Readable(rows) { forall i | 0 <= i < |rows| ensures Sound(rows[i]) { RowIsSound(rows, i); } }
    if forall i :: 0 <= i < |rows| ==> Sound(rows[i]) {
      forall p, key | Names(rows, p, key)
        ensures Safe(EntryAt(rows, p).traffic) && Safe(EntryAt(rows, p).volume) && Safe(EntryAt(rows, p).cpc)
      {
        NamesLie(rows, p);
        EntryIsSafe(rows, p, key);
      }
      forall i | 0 <= i < |rows|
        ensures (rows[i].visits.Some? ==> rows[i].traffic.Some?) && (rows[i].traffic.Some? ==> rows[i].traffic.value.keywords.Some?)
      {
        SoundIsWhole(rows[i]);
      }
    }
  }

  lemma SomethingIsNamed(rows: seq<Row>)
    ensures OfRows(rows) != [] <==> exists p, key :: Names(rows, p, key)
  {
    var places := ObservationsAreEntries(rows, |rows|);
    assert rows[..|rows|] == rows;
    MatchCounts(OfRows(rows), rows, places);
    hide OfRows, Match, Names;
    assert places != [] ==> places[0] in places;
  }

  /** make_plan makes a plan exactly if the source is readable and has a usable entry. */
  lemma PlansAreMade(rows: seq<Row>)
    ensures (forall i :: 0 <= i < |rows| ==> Sound(rows[i])) && OfRows(rows) != [] <==>
      Readable(rows) && exists p, key :: Names(rows, p, key)
  {
    hide Sound, Readable, Names, OfRows;
    SoundMeansReadable(rows);
    SomethingIsNamed(rows);
  }
}

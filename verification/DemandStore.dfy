/** publish_month from start to end, over whatever an interrupted attempt left behind. */
module DemandStore {
  import opened Prelude
  import opened DemandPlan
  import opened DemandTotals
  import opened DemandTables
  import opened DemandPublication

  datatype Outcome = Current | Blocked | Active

  /** The slice once a whole table is cleared. */
  function Emptied(slice: Slice, table: Table): Slice {
    match table
    case TermTable => slice.(terms := [])
    case MetricTable => slice.(metrics := [])
    case ObservationTable => slice.(observations := [])
  }

  /** The slice once the rows of a part up to `end` are appended. */
  function Filled(slice: Slice, plan: Plan, part: Part, end: nat): Slice
    requires end <= Size(plan, part)
  {
    match part
    case ObservationPart => slice.(observations := slice.observations + plan.observations[..end])
    case LabelPart => slice
    case MetricPart => slice.(metrics := slice.metrics + plan.metrics[..end])
    case TermPart => slice.(terms := slice.terms + plan.terms[..end])
  }

  function LabelsOf(plan: Plan, end: nat): set<Keyword>
    requires end <= |plan.metrics|
  {
    set i | 0 <= i < end :: plan.metrics[i].keyword
  }

  class SearchDemandStore {
    var slices: map<Month, Slice>
    var labels: set<Keyword>
    var coverage: map<Month, Plan>

    constructor ()
      ensures Valid() && slices == map[] && labels == {} && coverage == map[]
    {
      slices, labels, coverage := map[], {}, map[];
    }

    /** The schema's unique keys. */
    ghost predicate Valid()
      reads this
    {
      AllKeysUnique(slices)
    }

    twostate predicate OnlyMonthChanges(month: Month)
      reads this
    {
      forall m :: m != month ==> At(slices, m) == At(old(slices), m)
    }

    method PublishedMonth() returns (latest: Option<Month>)
      ensures latest.None? <==> coverage == map[]
      ensures latest.Some? ==> latest.value in coverage && forall m :: m in coverage ==> m <= latest.value
    {
      latest := None;
      var rest := coverage.Keys;
      while rest != {}
        invariant rest <= coverage.Keys
        invariant latest.None? ==> rest == coverage.Keys
        invariant latest.Some? ==> latest.value in coverage && forall m :: m in coverage && m !in rest ==> m <= latest.value
        decreases |rest|
      {
        var m :| m in rest;
        rest := rest - {m};
        if latest.None? || m > latest.value { latest := Some(m); }
      }
    }

    /** The loop of clear_unpublished over one table; false where the source raises. */
    method ClearTable(month: Month, table: Table) returns (ok: bool)
      requires Valid()
      modifies this`slices
      ensures Valid() && OnlyMonthChanges(month)
      ensures ok <==> Count(At(old(slices), month), table) == 0 || !Covered(coverage, month)
      ensures At(slices, month) == if ok then Emptied(At(old(slices), month), table) else At(old(slices), month)
    {
      while Count(At(slices, month), table) > 0
        invariant Valid() && OnlyMonthChanges(month)
        invariant At(slices, month) == At(old(slices), month) || !Covered(coverage, month)
        invariant Emptied(At(slices, month), table) == Emptied(At(old(slices), month), table)
        decreases Count(At(slices, month), table)
      {
        hide KeysUnique;
        if Covered(coverage, month) { return false; }
        KeysStayUnique(At(slices, month), table);
        slices := slices[month := DropPage(At(slices, month), table)];
      }
      return true;
    }

    method ClearUnpublished(month: Month) returns (ok: bool)
      requires Valid()
      modifies this`slices
      ensures Valid() && OnlyMonthChanges(month)
      ensures !Covered(coverage, month) ==> ok && At(slices, month) == EMPTY
      ensures Covered(coverage, month) ==> At(slices, month) == At(old(slices), month)
    {
      hide KeysUnique, AllKeysUnique;
      ok := ClearTable(month, TermTable);
      if ok { ok := ClearTable(month, MetricTable); }
      if ok { ok := ClearTable(month, ObservationTable); }
    }

    /** insert_rows, page by page; false where a unique key is broken. */
    method InsertRows(month: Month, plan: Plan, part: Part) returns (ok: bool)
      requires Valid() && !Covered(coverage, month)
      modifies this`slices, this`labels
      ensures Valid() && OnlyMonthChanges(month)
      ensures ok <==> KeysUnique(Filled(At(old(slices), month), plan, part, Size(plan, part)))
      ensures ok ==> At(slices, month) == Filled(At(old(slices), month), plan, part, Size(plan, part))
      ensures ok ==> labels == old(labels) + NewLabels(plan, part, Size(plan, part))
    {
      var from := 0;
      while from < Size(plan, part)
        invariant 0 <= from <= Size(plan, part)
        invariant Valid() && OnlyMonthChanges(month)
        invariant At(slices, month) == Filled(At(old(slices), month), plan, part, from)
        invariant labels == old(labels) + NewLabels(plan, part, from)
      {
        hide KeysUnique, Covered, Filled, InsertPage, NewLabels;
        var end := PageEnd(plan, part, from);
        PageFills(Tables(slices, labels, coverage), At(old(slices), month), old(labels), month, plan, part, from);
        var after := InsertPage(Tables(slices, labels, coverage), month, plan, part, from);
        if KeysUnique(Filled(At(old(slices), month), plan, part, Size(plan, part))) {
          PrefixStaysUnique(At(old(slices), month), plan, part, end);
        }
        if !KeysUnique(At(after.slices, month)) { return false; }
        slices, labels := after.slices, after.labels;
        from := end;
      }
      return true;
    }

    /** The writes of a month that has just been cleared. */
    method BuildMonth(month: Month, plan: Plan) returns (ok: bool)
      requires Valid() && !Covered(coverage, month) && At(slices, month) == EMPTY
      modifies this`slices, this`labels
      ensures Valid() && OnlyMonthChanges(month)
      ensures KeysUnique(Slice(plan.observations, plan.metrics, plan.terms)) ==>
        ok && Holds(At(slices, month), labels, plan)
    {
      hide KeysUnique, AllKeysUnique, Filled;
      PlanFillsEmpty(plan);
      PartsAreUnique(plan);
      ok := InsertRows(month, plan, ObservationPart);
      if ok { ok := InsertRows(month, plan, LabelPart); }
      if ok { ok := InsertRows(month, plan, MetricPart); }
      if ok { ok := InsertRows(month, plan, TermPart); }
      if ok && KeysUnique(Slice(plan.observations, plan.metrics, plan.terms)) { AllLabelled(plan, labels); }
    }

    /** The first reading of the source is planned and built; the second must agree with it. */
    method PublishMonth(month: Month, released: bool, rows: seq<Row>, sectors: map<Term, Sector>,
                        again: seq<Row>, sectorsAgain: map<Term, Sector>, stillReleased: bool) returns (outcome: Outcome)
      requires Valid() && OneRowEach(rows)
      modifies this
      ensures Valid() && OnlyMonthChanges(month)
      ensures outcome.Current? <==> Covered(old(coverage), month)
      ensures outcome.Active? <==>
        && !Covered(old(coverage), month) && released && stillReleased && again == rows && sectorsAgain == sectors
        && OfRows(rows) != [] && forall i :: 0 <= i < |rows| ==> Sound(rows[i])
      ensures outcome.Active? ==> month in coverage && coverage == old(coverage)[month := coverage[month]]
      ensures outcome.Active? ==> PlanFits(coverage[month], rows, sectors)
      ensures outcome.Active? ==> Holds(At(slices, month), labels, coverage[month])
      ensures !outcome.Active? ==> coverage == old(coverage)
      ensures outcome.Current? ==> slices == old(slices) && labels == old(labels)
    {
      hide KeysUnique, AllKeysUnique, PlanFits;
      var latest := PublishedMonth();
      assert Covered(coverage, month) <==> latest.Some? && latest.value >= month;
      if latest.Some? && latest.value >= month { return Current; }
      if !released { return Blocked; }
      var planned := MakePlan(rows, sectors);
      if planned.None? { return Blocked; }
      var plan := planned.value;
      var ok := ClearUnpublished(month);
      PlanHasUniqueKeys(plan, rows, sectors);
      if ok { ok := BuildMonth(month, plan); }
      KeysAt(slices, month);
      ValidateAcceptsThePlan(At(slices, month), labels, plan, rows, sectors);
      if ok { ok := Validate(At(slices, month), labels, plan); }
      SummaryCounts(plan, rows, sectors);
      if !ok || again != rows || sectorsAgain != sectors
        || !MayCommit(Tables(slices, labels, coverage), month, plan, stillReleased) {
        return Blocked;
      }
      coverage := coverage[month := plan];
      return Active;
    }
  }

  lemma KeysAt(slices: map<Month, Slice>, month: Month)
    requires AllKeysUnique(slices)
    ensures KeysUnique(At(slices, month))
  {
  }

  function NewLabels(plan: Plan, part: Part, end: nat): set<Keyword>
    requires end <= Size(plan, part)
  {
    if part == LabelPart then LabelsOf(plan, end) else {}
  }

  lemma Append<V>(before: seq<V>, rows: seq<V>, from: nat, end: nat)
    requires from <= end <= |rows|
    ensures before + rows[..from] + rows[from..end] == before + rows[..end]
  {
    assert rows[..from] + rows[from..end] == rows[..end];
  }

  lemma PageFills(t: Tables, slice: Slice, labels: set<Keyword>, month: Month, plan: Plan, part: Part, from: nat)
    requires from < Size(plan, part) && !Covered(t.coverage, month)
    requires At(t.slices, month) == Filled(slice, plan, part, from) && t.labels == labels + NewLabels(plan, part, from)
    ensures var end := PageEnd(plan, part, from); var after := InsertPage(t, month, plan, part, from);
      && At(after.slices, month) == Filled(slice, plan, part, end)
      && (forall m :: m != month ==> At(after.slices, m) == At(t.slices, m))
      && (forall m :: m in after.slices && m != month ==> m in t.slices)
      && after.labels == labels + NewLabels(plan, part, end)
  {
    var end := PageEnd(plan, part, from);
    match part
    case ObservationPart => Append(slice.observations, plan.observations, from, end);
    case MetricPart => Append(slice.metrics, plan.metrics, from, end);
    case TermPart => Append(slice.terms, plan.terms, from, end);
    case LabelPart =>
      var more := set i | from <= i < end :: plan.metrics[i].keyword;
      assert LabelsOf(plan, end) == LabelsOf(plan, from) + more;
      assert labels + LabelsOf(plan, from) + more == labels + LabelsOf(plan, end);
  }

  lemma PrefixStaysUnique(slice: Slice, plan: Plan, part: Part, end: nat)
    requires end <= Size(plan, part) && KeysUnique(Filled(slice, plan, part, Size(plan, part)))
    ensures KeysUnique(Filled(slice, plan, part, end))
  {
    var whole, some := Filled(slice, plan, part, Size(plan, part)), Filled(slice, plan, part, end);
    assert some.observations == whole.observations[..|some.observations|];
    assert some.metrics == whole.metrics[..|some.metrics|];
    assert some.terms == whole.terms[..|some.terms|];
  }

  /** What the three row tables hold after each part is written into an empty month. */
  lemma PlanFillsEmpty(plan: Plan)
    ensures Filled(EMPTY, plan, ObservationPart, |plan.observations|) == Slice(plan.observations, [], [])
    ensures Filled(Slice(plan.observations, [], []), plan, LabelPart, |plan.metrics|) == Slice(plan.observations, [], [])
    ensures Filled(Slice(plan.observations, [], []), plan, MetricPart, |plan.metrics|) == Slice(plan.observations, plan.metrics, [])
    ensures Filled(Slice(plan.observations, plan.metrics, []), plan, TermPart, |plan.terms|)
         == Slice(plan.observations, plan.metrics, plan.terms)
  {
    assert [] + plan.observations[..|plan.observations|] == plan.observations;
    assert [] + plan.metrics[..|plan.metrics|] == plan.metrics;
    assert [] + plan.terms[..|plan.terms|] == plan.terms;
  }

  lemma PartsAreUnique(plan: Plan)
    ensures KeysUnique(Slice(plan.observations, plan.metrics, plan.terms)) ==>
      KeysUnique(Slice(plan.observations, [], [])) && KeysUnique(Slice(plan.observations, plan.metrics, []))
  {
  }

  lemma PlanHasUniqueKeys(plan: Plan, rows: seq<Row>, sectors: map<Term, Sector>)
    requires PlanFits(plan, rows, sectors) && OneRowEach(rows)
    ensures KeysUnique(Slice(plan.observations, plan.metrics, plan.terms))
  {
    PlanKeysUnique(plan, rows, sectors);
    hide PlanFits;
  }

  lemma AllLabelled(plan: Plan, labels: set<Keyword>)
    requires LabelsOf(plan, |plan.metrics|) <= labels
    ensures Labelled(plan.metrics, labels)
  {
  }

  lemma SummaryCounts(plan: Plan, rows: seq<Row>, sectors: map<Term, Sector>)
    requires PlanFits(plan, rows, sectors)
    ensures plan.summary.terms == |plan.metrics| && plan.summary.observations == |plan.observations|
  {
  }
}

/** A publisher that nobody disturbs publishes, whatever an interrupted attempt left behind. */
module DemandProgress {
  import opened DemandPlan
  import opened DemandTotals
  import opened DemandTables
  import opened DemandPublication
  import opened DemandStore

  /** Publisher `pid` stands at `p`; its month holds `slice`, these labels are there, and all else is as in `s`. */
  ghost predicate Stands(s: State, t: State, pid: Pid, p: Publisher, slice: Slice, labels: set<Keyword>) {
    && t.publishers == s.publishers[pid := p]
    && t.tables.coverage == s.tables.coverage && t.tables.labels == labels
    && At(t.tables.slices, p.month) == slice
    && forall m :: m != p.month ==> At(t.tables.slices, m) == At(s.tables.slices, m)
  }

  ghost predicate AllBy(steps: seq<Step>, pid: Pid) { forall i :: 0 <= i < |steps| ==> steps[i].pid == pid }

  lemma Extend(t: State, steps: seq<Step>, step: Step, pid: Pid)
    requires AllBy(steps, pid) && step.pid == pid
    ensures After(t, [step] + steps) == After(Next(t, step), steps) && AllBy([step] + steps, pid)
  {
    assert ([step] + steps)[1..] == steps;
  }

  lemma Join(t: State, xs: seq<Step>, ys: seq<Step>, pid: Pid)
    requires AllBy(xs, pid) && AllBy(ys, pid)
    ensures After(t, xs + ys) == After(After(t, xs), ys) && AllBy(xs + ys, pid)
  {
    Twice(t, xs, ys);
  }

  // ---------- clearing ----------

  lemma ClearsAPage(s: State, t: State, pid: Pid, p: Publisher, slice: Slice, labels: set<Keyword>, table: Table)
    requires Stands(s, t, pid, p, slice, labels) && p.phase == Clearing(table) && !Covered(s.tables.coverage, p.month)
    ensures if Count(slice, table) == 0 then Stands(s, Next(t, Clear(pid)), pid, p.(phase := AfterTable(table)), slice, labels)
            else Stands(s, Next(t, Clear(pid)), pid, p, DropPage(slice, table), labels)
  {
    hide AfterTable, DropPage, KeysUnique, Accepts, PlanFits;
  }

  lemma PageShrinks(slice: Slice, table: Table)
    requires Count(slice, table) > 0
    ensures Count(DropPage(slice, table), table) < Count(slice, table) && Emptied(DropPage(slice, table), table) == Emptied(slice, table)
  {
  }

  lemma NothingToEmpty(slice: Slice, table: Table)
    requires Count(slice, table) == 0
    ensures Emptied(slice, table) == slice
  {
  }

  lemma {:induction false} ClearsTable(s: State, t: State, pid: Pid, p: Publisher, slice: Slice, labels: set<Keyword>, table: Table)
    returns (steps: seq<Step>)
    requires Stands(s, t, pid, p, slice, labels) && p.phase == Clearing(table) && !Covered(s.tables.coverage, p.month)
    ensures AllBy(steps, pid)
    ensures Stands(s, After(t, steps), pid, p.(phase := AfterTable(table)), Emptied(slice, table), labels)
    decreases Count(slice, table)
  {
    ClearsAPage(s, t, pid, p, slice, labels, table);
    hide Stands, AfterTable, DropPage, Next, Covered, Emptied;
    steps := [];
    if Count(slice, table) == 0 {
      NothingToEmpty(slice, table);
    } else {
      PageShrinks(slice, table);
      steps := ClearsTable(s, Next(t, Clear(pid)), pid, p, DropPage(slice, table), labels, table);
    }
    Extend(t, steps, Clear(pid), pid);
    steps := [Clear(pid)] + steps;
  }

  lemma ClearsMonth(s: State, t: State, pid: Pid, p: Publisher, slice: Slice, labels: set<Keyword>) returns (steps: seq<Step>)
    requires Stands(s, t, pid, p, slice, labels) && p.phase == Clearing(TermTable) && !Covered(s.tables.coverage, p.month)
    ensures AllBy(steps, pid)
    ensures Stands(s, After(t, steps), pid, p.(phase := Writing(ObservationPart, 0)), EMPTY, labels)
  {
    hide Stands, Covered, After;
    var first := ClearsTable(s, t, pid, p, slice, labels, TermTable);
    var p1, slice1 := p.(phase := Clearing(MetricTable)), Emptied(slice, TermTable);
    var second := ClearsTable(s, After(t, first), pid, p1, slice1, labels, MetricTable);
    var p2, slice2 := p.(phase := Clearing(ObservationTable)), Emptied(slice1, MetricTable);
    Join(t, first, second, pid);
    assert p1.(phase := Clearing(ObservationTable)) == p2;
    var third := ClearsTable(s, After(t, first + second), pid, p2, slice2, labels, ObservationTable);
    Join(t, first + second, third, pid);
    assert p2.(phase := Writing(ObservationPart, 0)) == p.(phase := Writing(ObservationPart, 0));
    assert Emptied(slice2, ObservationTable) == EMPTY;
    steps := first + second + third;
  }

  // ---------- writing ----------

  lemma WritesAPage(s: State, t: State, pid: Pid, p: Publisher, slice: Slice, labels: set<Keyword>, part: Part, from: nat)
    requires from < Size(p.plan, part) && p.phase == Writing(part, from) && !Covered(s.tables.coverage, p.month)
    requires Stands(s, t, pid, p, Filled(slice, p.plan, part, from), labels + NewLabels(p.plan, part, from))
    requires KeysUnique(Filled(slice, p.plan, part, Size(p.plan, part)))
    ensures var end := PageEnd(p.plan, part, from);
      Stands(s, Next(t, Write(pid)), pid, p.(phase := Writing(part, end)), Filled(slice, p.plan, part, end), labels + NewLabels(p.plan, part, end))
  {
    var end := PageEnd(p.plan, part, from);
    PageFills(t.tables, slice, labels, p.month, p.plan, part, from);
    PrefixStaysUnique(slice, p.plan, part, end);
    InsertKeepsCoverage(t.tables, p.month, p.plan, part, from);
    hide Filled, NewLabels, KeysUnique, InsertPage, PageEnd, Covered, Accepts, PlanFits, AfterPart;
  }

  lemma InsertKeepsCoverage(t: Tables, month: Month, plan: Plan, part: Part, from: nat)
    requires from <= Size(plan, part)
    ensures InsertPage(t, month, plan, part, from).coverage == t.coverage
  {
  }

  lemma EndsPart(s: State, t: State, pid: Pid, p: Publisher, slice: Slice, labels: set<Keyword>, part: Part)
    requires Stands(s, t, pid, p, slice, labels) && p.phase == Writing(part, Size(p.plan, part))
    ensures Stands(s, Next(t, Write(pid)), pid, p.(phase := AfterPart(part)), slice, labels)
  {
    hide AfterPart, KeysUnique, InsertPage, Accepts, PlanFits;
  }

  lemma {:induction false} WritesRest(s: State, t: State, pid: Pid, p: Publisher, slice: Slice, labels: set<Keyword>, part: Part, from: nat)
    returns (steps: seq<Step>)
    requires from <= Size(p.plan, part) && p.phase == Writing(part, from) && !Covered(s.tables.coverage, p.month)
    requires Stands(s, t, pid, p, Filled(slice, p.plan, part, from), labels + NewLabels(p.plan, part, from))
    requires KeysUnique(Filled(slice, p.plan, part, Size(p.plan, part)))
    ensures AllBy(steps, pid)
    ensures var size := Size(p.plan, part);
      Stands(s, After(t, steps), pid, p.(phase := AfterPart(part)), Filled(slice, p.plan, part, size), labels + NewLabels(p.plan, part, size))
    decreases Size(p.plan, part) - from
  {
    hide Stands, AfterPart, Covered, Filled, NewLabels, KeysUnique, Next;
    steps := [];
    if from == Size(p.plan, part) {
      EndsPart(s, t, pid, p, Filled(slice, p.plan, part, from), labels + NewLabels(p.plan, part, from), part);
    } else {
      var end := PageEnd(p.plan, part, from);
      WritesAPage(s, t, pid, p, slice, labels, part, from);
      steps := WritesRest(s, Next(t, Write(pid)), pid, p.(phase := Writing(part, end)), slice, labels, part, end);
    }
    Extend(t, steps, Write(pid), pid);
    steps := [Write(pid)] + steps;
  }

  lemma NothingFilled(slice: Slice, plan: Plan, part: Part, labels: set<Keyword>)
    ensures Filled(slice, plan, part, 0) == slice && labels + NewLabels(plan, part, 0) == labels
  {
    assert slice.observations + plan.observations[..0] == slice.observations;
    assert slice.metrics + plan.metrics[..0] == slice.metrics;
    assert slice.terms + plan.terms[..0] == slice.terms;
  }

  lemma WritesPart(s: State, t: State, pid: Pid, p: Publisher, slice: Slice, labels: set<Keyword>, part: Part) returns (steps: seq<Step>)
    requires p.phase == Writing(part, 0) && !Covered(s.tables.coverage, p.month) && Stands(s, t, pid, p, slice, labels)
    requires KeysUnique(Filled(slice, p.plan, part, Size(p.plan, part)))
    ensures AllBy(steps, pid)
    ensures var size := Size(p.plan, part);
      Stands(s, After(t, steps), pid, p.(phase := AfterPart(part)), Filled(slice, p.plan, part, size), labels + NewLabels(p.plan, part, size))
  {
    hide Stands, AfterPart, Covered, Filled, NewLabels, KeysUnique, Next, After;
    NothingFilled(slice, p.plan, part, labels);
    steps := WritesRest(s, t, pid, p, slice, labels, part, 0);
  }

  lemma PartsFill(plan: Plan, labels: set<Keyword>)
    ensures labels + NewLabels(plan, ObservationPart, |plan.observations|) == labels
    ensures var all := labels + LabelsOf(plan, |plan.metrics|);
      && labels + NewLabels(plan, LabelPart, |plan.metrics|) == all
      && all + NewLabels(plan, MetricPart, |plan.metrics|) == all && all + NewLabels(plan, TermPart, |plan.terms|) == all
  {
  }

  lemma WritesPlan(s: State, t: State, pid: Pid, p: Publisher, labels: set<Keyword>) returns (steps: seq<Step>)
    requires Stands(s, t, pid, p, EMPTY, labels) && p.phase == Writing(ObservationPart, 0) && !Covered(s.tables.coverage, p.month)
    requires KeysUnique(Slice(p.plan.observations, p.plan.metrics, p.plan.terms))
    ensures AllBy(steps, pid)
    ensures Stands(s, After(t, steps), pid, p.(phase := Validating), Slice(p.plan.observations, p.plan.metrics, p.plan.terms),
                   labels + LabelsOf(p.plan, |p.plan.metrics|))
  {
    var plan, all := p.plan, labels + LabelsOf(p.plan, |p.plan.metrics|);
    var seen := Slice(plan.observations, [], []);
    PlanFillsEmpty(plan);
    PartsAreUnique(plan);
    PartsFill(plan, labels);
    hide Stands, Covered, After, Filled, NewLabels, KeysUnique, LabelsOf;
    var one := WritesPart(s, t, pid, p, EMPTY, labels, ObservationPart);
    var two := WritesPart(s, After(t, one), pid, p.(phase := Writing(LabelPart, 0)), seen, labels, LabelPart);
    Join(t, one, two, pid);
    var three := WritesPart(s, After(t, one + two), pid, p.(phase := Writing(MetricPart, 0)), seen, all, MetricPart);
    Join(t, one + two, three, pid);
    var four := WritesPart(s, After(t, one + two + three), pid, p.(phase := Writing(TermPart, 0)),
                           Slice(plan.observations, plan.metrics, []), all, TermPart);
    Join(t, one + two + three, four, pid);
    steps := one + two + three + four;
  }

  // ---------- from start to end ----------

  lemma Starts(s: State, pid: Pid, month: Month, locked: bool, rows: seq<Row>, sectors: map<Term, Sector>, plan: Plan)
    requires pid !in s.publishers && (locked ==> LockFree(s)) && !Covered(s.tables.coverage, month)
    requires OneRowEach(rows) && PlanFits(plan, rows, sectors)
    ensures var steps := [Begin(pid, month, locked), Build(pid, rows, sectors, plan)];
      && AllBy(steps, pid)
      && Stands(s, After(s, steps), pid, Publisher(month, locked, Clearing(TermTable), rows, sectors, plan),
                At(s.tables.slices, month), s.tables.labels)
  {
    var begun := Next(s, Begin(pid, month, locked));
    hide PlanFits, OneRowEach, Accepts, KeysUnique, LockFree, Covered;
    Once(begun, Build(pid, rows, sectors, plan));
    Extend(s, [Build(pid, rows, sectors, plan)], Begin(pid, month, locked), pid);
    assert [Begin(pid, month, locked)] + [Build(pid, rows, sectors, plan)] == [Begin(pid, month, locked), Build(pid, rows, sectors, plan)];
  }

  lemma WrittenIsAccepted(plan: Plan, rows: seq<Row>, sectors: map<Term, Sector>, labels: set<Keyword>)
    requires OneRowEach(rows) && PlanFits(plan, rows, sectors) && LabelsOf(plan, |plan.metrics|) <= labels
    ensures var slice := Slice(plan.observations, plan.metrics, plan.terms);
      KeysUnique(slice) && Holds(slice, labels, plan) && Accepts(slice, labels, plan)
  {
    var slice := Slice(plan.observations, plan.metrics, plan.terms);
    PlanHasUniqueKeys(plan, rows, sectors);
    AllLabelled(plan, labels);
    hide PlanFits, Accepts, OneRowEach, KeysUnique;
    ValidateAcceptsThePlan(slice, labels, plan, rows, sectors);
  }

  lemma ChecksRight(t: State, pid: Pid, p: Publisher)
    requires pid in t.publishers && t.publishers[pid] == p && p.phase.Validating?
    requires Accepts(At(t.tables.slices, p.month), t.tables.labels, p.plan)
    ensures Next(t, Check(pid)) == t.(publishers := t.publishers[pid := p.(phase := Rechecking)])
  {
    hide Accepts, PlanFits, KeysUnique;
  }

  lemma RechecksRight(t: State, pid: Pid, p: Publisher)
    requires pid in t.publishers && t.publishers[pid] == p && p.phase.Rechecking?
    ensures Next(t, Recheck(pid, p.rows, p.sectors)) == t.(publishers := t.publishers[pid := p.(phase := Committing)])
  {
    hide Accepts, PlanFits, KeysUnique;
  }

  lemma CommitsRight(t: State, pid: Pid, p: Publisher)
    requires pid in t.publishers && t.publishers[pid] == p && p.phase.Committing? && MayCommit(t.tables, p.month, p.plan, true)
    ensures Next(t, Commit(pid, true)) == State(t.tables.(coverage := t.tables.coverage[p.month := p.plan]), t.publishers - {pid})
  {
    hide Accepts, PlanFits, KeysUnique, MayCommit;
  }

  lemma BackWithout(publishers: map<Pid, Publisher>, pid: Pid, a: Publisher, b: Publisher, c: Publisher)
    requires pid !in publishers
    ensures publishers[pid := a][pid := b][pid := c] - {pid} == publishers
  {
  }

  /** What is written is accepted, read again, and comes out. */
  lemma Finishes(s: State, t: State, pid: Pid, p: Publisher, labels: set<Keyword>)
    requires pid !in s.publishers && p.phase.Validating? && !Covered(s.tables.coverage, p.month)
    requires OneRowEach(p.rows) && PlanFits(p.plan, p.rows, p.sectors) && LabelsOf(p.plan, |p.plan.metrics|) <= labels
    requires Stands(s, t, pid, p, Slice(p.plan.observations, p.plan.metrics, p.plan.terms), labels)
    ensures var steps := [Check(pid), Recheck(pid, p.rows, p.sectors), Commit(pid, true)]; var u := After(t, steps);
      && AllBy(steps, pid)
      && u.tables == t.tables.(coverage := s.tables.coverage[p.month := p.plan]) && u.publishers == s.publishers
  {
    var a, b, c := Check(pid), Recheck(pid, p.rows, p.sectors), Commit(pid, true);
    var p1, p2 := p.(phase := Rechecking), p.(phase := Committing);
    var t1 := t.(publishers := t.publishers[pid := p1]);
    var t2 := t1.(publishers := t1.publishers[pid := p2]);
    WrittenIsAccepted(p.plan, p.rows, p.sectors, labels);
    SummaryCounts(p.plan, p.rows, p.sectors);
    hide PlanFits, Accepts, OneRowEach, KeysUnique, Covered, Holds, LabelsOf, Next, After, AllBy;
    ChecksRight(t, pid, p);
    RechecksRight(t1, pid, p1);
    CommitsRight(t2, pid, p2);
    BackWithout(s.publishers, pid, p, p1, p2);
    Once(t2, c);
    Extend(t1, [c], b, pid) by { assert AllBy([c], pid) by { OneStepBy(c, pid); } }
    Extend(t, [b] + [c], a, pid);
    assert [a] + ([b] + [c]) == [a, b, c];
  }

  lemma OneStepBy(step: Step, pid: Pid)
    requires step.pid == pid
    ensures AllBy([step], pid)
  {
  }

  /**
   Whoever may start, with a plan of the source, can publish by its own steps alone: if the source stays
   as it was and the month is released, the month ends holding the plan, and no other month has changed.
   */
  lemma UndisturbedPublisherPublishes(s: State, pid: Pid, month: Month, locked: bool, rows: seq<Row>, sectors: map<Term, Sector>, plan: Plan)
    returns (steps: seq<Step>)
    requires pid !in s.publishers && (locked ==> LockFree(s)) && !Covered(s.tables.coverage, month)
    requires OneRowEach(rows) && PlanFits(plan, rows, sectors)
    ensures AllBy(steps, pid)
    ensures var t := After(s, steps);
      && t.tables.coverage == s.tables.coverage[month := plan] && t.publishers == s.publishers
      && Holds(At(t.tables.slices, month), t.tables.labels, plan)
      && forall m :: m != month ==> At(t.tables.slices, m) == At(s.tables.slices, m)
  {
    var p := Publisher(month, locked, Clearing(TermTable), rows, sectors, plan);
    var opening := [Begin(pid, month, locked), Build(pid, rows, sectors, plan)];
    var closing := [Check(pid), Recheck(pid, rows, sectors), Commit(pid, true)];
    var labels := s.tables.labels + LabelsOf(plan, |plan.metrics|);
    WrittenIsAccepted(plan, rows, sectors, labels);
    Starts(s, pid, month, locked, rows, sectors, plan);
    hide PlanFits, OneRowEach, KeysUnique, Accepts, Covered, Holds, LabelsOf, After, Next, LockFree, AllBy;
    var clearing := ClearsMonth(s, After(s, opening), pid, p, At(s.tables.slices, month), s.tables.labels);
    Join(s, opening, clearing, pid);
    var writing := WritesPlan(s, After(s, opening + clearing), pid, p.(phase := Writing(ObservationPart, 0)), s.tables.labels);
    Join(s, opening + clearing, writing, pid);
    Finishes(s, After(s, opening + clearing + writing), pid, p.(phase := Validating), labels);
    Join(s, opening + clearing + writing, closing, pid);
    steps := opening + clearing + writing + closing;
  }
}

/** Publishing a month last: many publishers, their statements in any order, crashes anywhere. */
module DemandPublication {
  import opened DemandPlan
  import opened DemandTotals
  import opened DemandTables

  type Month = nat
  type Pid = nat

  /** `coverage` maps a published month to the plan whose summary its coverage row holds. */
  datatype Tables = Tables(slices: map<Month, Slice>, labels: set<Keyword>, coverage: map<Month, Plan>)

  function At(slices: map<Month, Slice>, month: Month): Slice { if month in slices then slices[month] else EMPTY }

  /** The guard of every statement: this month or a later one is out. */
  predicate Covered(coverage: map<Month, Plan>, month: Month) { exists m :: m in coverage && m >= month }

  // ---------- statements ----------

  /** The order in which tables are cleared. */
  datatype Table = TermTable | MetricTable | ObservationTable

  function Count(slice: Slice, table: Table): nat {
    match table
    case TermTable => |slice.terms|
    case MetricTable => |slice.metrics|
    case ObservationTable => |slice.observations|
  }

  function AfterPage<V>(rows: seq<V>): seq<V> { rows[PageLength(|rows|)..] }

  function DropPage(slice: Slice, table: Table): Slice {
    match table
    case TermTable => slice.(terms := AfterPage(slice.terms))
    case MetricTable => slice.(metrics := AfterPage(slice.metrics))
    case ObservationTable => slice.(observations := AfterPage(slice.observations))
  }

  /** The order in which a plan is written. */
  datatype Part = ObservationPart | LabelPart | MetricPart | TermPart

  function Size(plan: Plan, part: Part): nat {
    match part
    case ObservationPart => |plan.observations|
    case LabelPart => |plan.metrics|
    case MetricPart => |plan.metrics|
    case TermPart => |plan.terms|
  }

  function PageEnd(plan: Plan, part: Part, from: nat): (end: nat)
    requires from <= Size(plan, part)
    ensures from <= end <= Size(plan, part)
  {
    from + PageLength(Size(plan, part) - from)
  }

  /** One guarded INSERT of a page of rows; a label is kept where there is one. */
  function InsertPage(t: Tables, month: Month, plan: Plan, part: Part, from: nat): Tables
    requires from <= Size(plan, part)
  {
    var end := PageEnd(plan, part, from);
    var slice := At(t.slices, month);
    if Covered(t.coverage, month) then t
    else match part
      case ObservationPart => t.(slices := t.slices[month := slice.(observations := slice.observations + plan.observations[from..end])])
      case LabelPart => t.(labels := t.labels + set i | from <= i < end :: plan.metrics[i].keyword)
      case MetricPart => t.(slices := t.slices[month := slice.(metrics := slice.metrics + plan.metrics[from..end])])
      case TermPart => t.(slices := t.slices[month := slice.(terms := slice.terms + plan.terms[from..end])])
  }

  /** The one insert that makes a month public. */
  predicate MayCommit(t: Tables, month: Month, plan: Plan, released: bool) {
    && !Covered(t.coverage, month) && released
    && |At(t.slices, month).metrics| == plan.summary.terms && |At(t.slices, month).observations| == plan.summary.observations
  }

  // ---------- publishers ----------

  datatype Phase =
    | Planning
    | Clearing(table: Table)
    | Writing(part: Part, from: nat)
    | Validating
    | Rechecking
    | Committing

  /** A publisher with what it has read and planned; `locked` says it holds the file lock. */
  datatype Publisher = Publisher(
    month: Month, locked: bool, phase: Phase, rows: seq<Row>, sectors: map<Term, Sector>, plan: Plan)

  datatype State = State(tables: Tables, publishers: map<Pid, Publisher>)

  datatype Step =
    | Begin(pid: Pid, month: Month, locked: bool)
    | Build(pid: Pid, rows: seq<Row>, sectors: map<Term, Sector>, plan: Plan)
    | Clear(pid: Pid)
    | Write(pid: Pid)
    | Check(pid: Pid)
    | Recheck(pid: Pid, rows: seq<Row>, sectors: map<Term, Sector>)
    | Commit(pid: Pid, released: bool)
    | Crash(pid: Pid)

  const NOPLAN := Plan([], [], [], Summary(0, 0, 0, 0, 0, 0, 0, 0, 0))

  function Leave(s: State, pid: Pid): State { s.(publishers := s.publishers - {pid}) }

  function Go(s: State, pid: Pid, phase: Phase): State
    requires pid in s.publishers
  {
    s.(publishers := s.publishers[pid := s.publishers[pid].(phase := phase)])
  }

  function AfterTable(table: Table): Phase {
    match table
    case TermTable => Clearing(MetricTable)
    case MetricTable => Clearing(ObservationTable)
    case ObservationTable => Writing(ObservationPart, 0)
  }

  function AfterPart(part: Part): Phase {
    match part
    case ObservationPart => Writing(LabelPart, 0)
    case LabelPart => Writing(MetricPart, 0)
    case MetricPart => Writing(TermPart, 0)
    case TermPart => Validating
  }

  /** One turn of clear_unpublished: read a page of row ids, delete them. */
  function ClearStep(s: State, pid: Pid, table: Table): State
    requires pid in s.publishers
  {
    var month := s.publishers[pid].month;
    var slice := At(s.tables.slices, month);
    if Count(slice, table) == 0 then Go(s, pid, AfterTable(table))
    else if Covered(s.tables.coverage, month) then Leave(s, pid)
    else s.(tables := s.tables.(slices := s.tables.slices[month := DropPage(slice, table)]))
  }

  /** The next page; the publisher fails where a unique key would be broken. */
  function WriteStep(s: State, pid: Pid, part: Part, from: nat): State
    requires pid in s.publishers
  {
    var p := s.publishers[pid];
    if from >= Size(p.plan, part) then Go(s, pid, AfterPart(part))
    else
      var after := InsertPage(s.tables, p.month, p.plan, part, from);
      if KeysUnique(At(after.slices, p.month)) then Go(s.(tables := after), pid, Writing(part, PageEnd(p.plan, part, from)))
      else Leave(s, pid)
  }

  predicate InPhase(s: State, pid: Pid, phase: Phase) { pid in s.publishers && s.publishers[pid].phase == phase }

  predicate LockFree(s: State) { forall pid :: pid in s.publishers ==> !s.publishers[pid].locked }

  /** A step whose moment it is not does nothing. */
  ghost function Next(s: State, step: Step): State {
    match step
    case Begin(pid, month, locked) =>
      if pid !in s.publishers && (locked ==> LockFree(s)) && !Covered(s.tables.coverage, month) then
        s.(publishers := s.publishers[pid := Publisher(month, locked, Planning, [], map[], NOPLAN)])
      else s
    case Build(pid, rows, sectors, plan) =>
      if InPhase(s, pid, Planning) && OneRowEach(rows) && PlanFits(plan, rows, sectors) then
        var p := s.publishers[pid];
        s.(publishers := s.publishers[pid := p.(phase := Clearing(TermTable), rows := rows, sectors := sectors, plan := plan)])
      else s
    case Clear(pid) =>
      if pid in s.publishers && s.publishers[pid].phase.Clearing? then ClearStep(s, pid, s.publishers[pid].phase.table) else s
    case Write(pid) =>
      if pid in s.publishers && s.publishers[pid].phase.Writing? then
        WriteStep(s, pid, s.publishers[pid].phase.part, s.publishers[pid].phase.from)
      else s
    case Check(pid) =>
      if !InPhase(s, pid, Validating) then s
      else if Accepts(At(s.tables.slices, s.publishers[pid].month), s.tables.labels, s.publishers[pid].plan) then Go(s, pid, Rechecking)
      else Leave(s, pid)
    case Recheck(pid, rows, sectors) =>
      if !InPhase(s, pid, Rechecking) then s
      else if rows == s.publishers[pid].rows && sectors == s.publishers[pid].sectors then Go(s, pid, Committing)
      else Leave(s, pid)
    case Commit(pid, released) =>
      if !InPhase(s, pid, Committing) then s
      else
        var p := s.publishers[pid];
        if MayCommit(s.tables, p.month, p.plan, released) then
          Leave(s.(tables := s.tables.(coverage := s.tables.coverage[p.month := p.plan])), pid)
        else Leave(s, pid)
    case Crash(pid) => Leave(s, pid)
  }

  ghost function After(s: State, steps: seq<Step>): State
    decreases |steps|
  {
    if steps == [] then s else After(Next(s, steps[0]), steps[1..])
  }

  lemma Twice(s: State, xs: seq<Step>, ys: seq<Step>)
    ensures After(s, xs + ys) == After(After(s, xs), ys)
    decreases |xs|
  {
    if xs == [] {
      assert xs + ys == ys;
    } else {
      assert (xs + ys)[1..] == xs[1..] + ys;
      Twice(Next(s, xs[0]), xs[1..], ys);
    }
  }

  lemma Once(s: State, step: Step)
    ensures After(s, [step]) == Next(s, step)
  {
    assert After(Next(s, step), []) == Next(s, step);
  }

  // ---------- how a month comes out ----------

  /** A month comes out in one way: released, rechecked, with as many rows as its plan says, and nothing later out. */
  lemma OnlyReleasedMonthsComeOut(s: State, step: Step, month: Month)
    requires month !in s.tables.coverage && month in Next(s, step).tables.coverage
    ensures step.Commit? && step.released && step.pid in s.publishers
    ensures var p, t := s.publishers[step.pid], Next(s, step); var slice := At(s.tables.slices, month);
      && p.month == month && p.phase.Committing? && t.tables == s.tables.(coverage := s.tables.coverage[month := p.plan])
      && |slice.metrics| == p.plan.summary.terms && |slice.observations| == p.plan.summary.observations
      && forall m :: m in s.tables.coverage ==> m < month
  {
    if step.Write? && step.pid in s.publishers && s.publishers[step.pid].phase.Writing? {
      hide InsertPage, KeysUnique;
      WritesKeepCoverage(s, step.pid, s.publishers[step.pid].phase.part, s.publishers[step.pid].phase.from);
    }
    hide Accepts, PlanFits, OneRowEach;
  }

  lemma WritesKeepCoverage(s: State, pid: Pid, part: Part, from: nat)
    requires pid in s.publishers
    ensures WriteStep(s, pid, part, from).tables.coverage == s.tables.coverage
  {
  }

  /** A publisher comes to the commit only through a validation and a second reading that found the same source. */
  lemma OnlyRecheckedPublishersCommit(s: State, step: Step, pid: Pid)
    requires InPhase(Next(s, step), pid, Committing) && !InPhase(s, pid, Committing)
    ensures step.Recheck? && step.pid == pid && InPhase(s, pid, Rechecking)
    ensures step.rows == s.publishers[pid].rows && step.sectors == s.publishers[pid].sectors
  {
    hide Accepts, PlanFits, OneRowEach, InsertPage, KeysUnique, MayCommit;
  }

  /** A publisher starts only where nothing as late is out, and with the lock only if nobody holds it. */
  lemma OnlyOpenMonthsBegin(s: State, step: Step, pid: Pid)
    requires pid !in s.publishers && pid in Next(s, step).publishers
    ensures var p := Next(s, step).publishers[pid];
      && step == Begin(pid, p.month, p.locked) && p.phase.Planning?
      && (forall m :: m in s.tables.coverage ==> m < p.month)
      && (p.locked ==> forall other :: other in s.publishers ==> !s.publishers[other].locked)
  {
    hide Accepts, PlanFits, OneRowEach, InsertPage, KeysUnique, MayCommit;
  }

  lemma OnlyValidatedPublishersRecheck(s: State, step: Step, pid: Pid)
    requires InPhase(Next(s, step), pid, Rechecking) && !InPhase(s, pid, Rechecking)
    ensures step.Check? && step.pid == pid && InPhase(s, pid, Validating)
    ensures var p := s.publishers[pid]; Accepts(At(s.tables.slices, p.month), s.tables.labels, p.plan)
  {
    hide Accepts, PlanFits, OneRowEach, InsertPage, KeysUnique, MayCommit;
  }

  // ---------- a published month stays as it is, whoever runs ----------

  lemma CoveredIsFrozenByAStep(s: State, step: Step, month: Month)
    requires Covered(s.tables.coverage, month)
    ensures var t := Next(s, step);
      && Covered(t.tables.coverage, month) && At(t.tables.slices, month) == At(s.tables.slices, month)
      && (month in s.tables.coverage ==> month in t.tables.coverage && t.tables.coverage[month] == s.tables.coverage[month])
      && (month !in s.tables.coverage ==> month !in t.tables.coverage)
  {
    hide KeysUnique, Accepts, DropPage, PlanFits;
    var m :| m in s.tables.coverage && m >= month;
    assert m in Next(s, step).tables.coverage;
  }

  /** After a month is published, no step of any publisher, locked or not, changes it or any earlier month. */
  lemma {:induction false} PublishedMonthsAreFrozen(s: State, steps: seq<Step>, month: Month)
    requires Covered(s.tables.coverage, month)
    ensures var t := After(s, steps);
      && At(t.tables.slices, month) == At(s.tables.slices, month)
      && (month in t.tables.coverage <==> month in s.tables.coverage)
      && (month in s.tables.coverage ==> t.tables.coverage[month] == s.tables.coverage[month])
    decreases |steps|
  {
    if steps != [] {
      hide Next;
      CoveredIsFrozenByAStep(s, steps[0], month);
      PublishedMonthsAreFrozen(Next(s, steps[0]), steps[1..], month);
    }
  }

  // ---------- under the lock, only validated rows are published ----------

  /** The rows a published plan promises: they are all there, and every keyword has a label. */
  ghost predicate Holds(slice: Slice, labels: set<Keyword>, plan: Plan) {
    SameRows(slice, plan) && Labelled(plan.metrics, labels)
  }

  ghost predicate Sourced(plan: Plan) {
    exists rows, sectors :: OneRowEach(rows) && PlanFits(plan, rows, sectors)
  }

  ghost predicate PublisherFits(p: Publisher, slices: map<Month, Slice>, labels: set<Keyword>) {
    && p.locked
    && (!p.phase.Planning? ==> OneRowEach(p.rows) && PlanFits(p.plan, p.rows, p.sectors))
    && (p.phase.Rechecking? || p.phase.Committing? ==> Holds(At(slices, p.month), labels, p.plan))
  }

  ghost predicate CoverageHolds(t: Tables, before: map<Month, Plan>) {
    forall m :: m in t.coverage && m !in before ==> Sourced(t.coverage[m]) && Holds(At(t.slices, m), t.labels, t.coverage[m])
  }

  ghost predicate AllKeysUnique(slices: map<Month, Slice>) { forall m :: m in slices ==> KeysUnique(slices[m]) }

  /** `before` is what was published before the run. */
  ghost predicate Inv(s: State, before: map<Month, Plan>) {
    && AllKeysUnique(s.tables.slices)
    && (forall a, b :: a in s.publishers && b in s.publishers ==> a == b)
    && (forall pid :: pid in s.publishers ==> PublisherFits(s.publishers[pid], s.tables.slices, s.tables.labels))
    && CoverageHolds(s.tables, before)
  }

  lemma HoldsWithMoreLabels(slice: Slice, labels: set<Keyword>, more: set<Keyword>, plan: Plan)
    requires Holds(slice, labels, plan) && labels <= more
    ensures Holds(slice, more, plan)
  {
  }

  /** Changing a month that is not covered, or adding labels, leaves what is published. */
  lemma CoverageHoldsOn(t: Tables, month: Month, slice: Slice, labels: set<Keyword>, before: map<Month, Plan>)
    requires CoverageHolds(t, before) && !Covered(t.coverage, month) && t.labels <= labels
    ensures CoverageHolds(t.(slices := t.slices[month := slice], labels := labels), before)
  {
    hide Holds, Sourced;
    forall m | m in t.coverage && m !in before ensures Holds(At(t.slices[month := slice], m), labels, t.coverage[m]) {
      assert m != month;
      HoldsWithMoreLabels(At(t.slices, m), t.labels, labels, t.coverage[m]);
    }
  }

  lemma LeavingKeepsInv(s: State, pid: Pid, before: map<Month, Plan>)
    requires Inv(s, before)
    ensures Inv(Leave(s, pid), before)
  {
    hide PublisherFits, CoverageHolds, AllKeysUnique;
  }

  /** The only publisher moves on. */
  lemma MovingKeepsInv(s: State, pid: Pid, p: Publisher, before: map<Month, Plan>)
    requires Inv(s, before) && pid in s.publishers && PublisherFits(p, s.tables.slices, s.tables.labels)
    ensures Inv(s.(publishers := s.publishers[pid := p]), before)
  {
    hide PublisherFits, CoverageHolds, AllKeysUnique;
    assert s.publishers.Keys == {pid};
  }

  /** The only publisher changes its month's rows before it has validated them. */
  lemma ChangingKeepsInv(s: State, pid: Pid, p: Publisher, slice: Slice, labels: set<Keyword>, before: map<Month, Plan>)
    requires Inv(s, before) && pid in s.publishers && !Covered(s.tables.coverage, p.month)
    requires !p.phase.Rechecking? && !p.phase.Committing? && PublisherFits(p, s.tables.slices, s.tables.labels)
    requires KeysUnique(slice) && s.tables.labels <= labels
    ensures Inv(s.(tables := s.tables.(slices := s.tables.slices[p.month := slice], labels := labels),
                   publishers := s.publishers[pid := p]), before)
  {
    assert s.publishers.Keys == {pid};
    CoverageHoldsOn(s.tables, p.month, slice, labels, before);
    hide CoverageHolds, KeysUnique, PlanFits;
  }

  lemma ClearKeepsInv(s: State, pid: Pid, before: map<Month, Plan>)
    requires Inv(s, before) && pid in s.publishers && s.publishers[pid].phase.Clearing?
    ensures Inv(ClearStep(s, pid, s.publishers[pid].phase.table), before)
  {
    hide Inv, PlanFits;
    var p, table := s.publishers[pid], s.publishers[pid].phase.table;
    var slice := At(s.tables.slices, p.month);
    PublisherOf(s, pid, before);
    LeavingKeepsInv(s, pid, before);
    if Count(slice, table) == 0 {
      MovingKeepsInv(s, pid, p.(phase := AfterTable(table)), before);
    } else if !Covered(s.tables.coverage, p.month) {
      KeysStayUnique(slice, table);
      ChangingKeepsInv(s, pid, p, DropPage(slice, table), s.tables.labels, before);
      assert s.publishers[pid := p] == s.publishers;
    }
  }

  lemma KeysStayUnique(slice: Slice, table: Table)
    requires KeysUnique(slice)
    ensures KeysUnique(DropPage(slice, table))
  {
  }

  lemma PublisherOf(s: State, pid: Pid, before: map<Month, Plan>)
    requires Inv(s, before) && pid in s.publishers
    ensures PublisherFits(s.publishers[pid], s.tables.slices, s.tables.labels)
    ensures KeysUnique(At(s.tables.slices, s.publishers[pid].month))
  {
  }

  lemma WriteKeepsInv(s: State, pid: Pid, before: map<Month, Plan>)
    requires Inv(s, before) && pid in s.publishers && s.publishers[pid].phase.Writing?
    ensures Inv(WriteStep(s, pid, s.publishers[pid].phase.part, s.publishers[pid].phase.from), before)
  {
    hide Inv, PlanFits, KeysUnique;
    var p, part, from := s.publishers[pid], s.publishers[pid].phase.part, s.publishers[pid].phase.from;
    PublisherOf(s, pid, before);
    LeavingKeepsInv(s, pid, before);
    if from >= Size(p.plan, part) {
      MovingKeepsInv(s, pid, p.(phase := AfterPart(part)), before);
    } else {
      var q := p.(phase := Writing(part, PageEnd(p.plan, part, from)));
      var after := InsertPage(s.tables, p.month, p.plan, part, from);
      if Covered(s.tables.coverage, p.month) {
        MovingKeepsInv(s, pid, q, before);
      } else if KeysUnique(At(after.slices, p.month)) {
        ChangingKeepsInv(s, pid, q, At(after.slices, p.month), after.labels, before);
        SameUpToEmpty(s, pid, q, after, before);
      }
    }
  }

  /** Writing an absent month's empty slice down changes nothing that is said of the state. */
  lemma SameUpToEmpty(s: State, pid: Pid, q: Publisher, after: Tables, before: map<Month, Plan>)
    requires after.coverage == s.tables.coverage
    requires after.slices == s.tables.slices || after.slices == s.tables.slices[q.month := At(after.slices, q.month)]
    requires Inv(State(Tables(s.tables.slices[q.month := At(after.slices, q.month)], after.labels, after.coverage), s.publishers[pid := q]), before)
    ensures Inv(s.(tables := after, publishers := s.publishers[pid := q]), before)
  {
    hide PlanFits, Holds, KeysUnique;
    var noted := s.tables.slices[q.month := At(after.slices, q.month)];
    assert forall m :: At(noted, m) == At(after.slices, m);
    assert forall m :: m in after.slices ==> m in noted && noted[m] == after.slices[m];
  }

  lemma CheckKeepsInv(s: State, pid: Pid, before: map<Month, Plan>)
    requires Inv(s, before) && InPhase(s, pid, Validating)
    ensures Inv(Next(s, Check(pid)), before)
  {
    hide Inv, PlanFits, KeysUnique, Accepts;
    var p := s.publishers[pid];
    var slice := At(s.tables.slices, p.month);
    PublisherOf(s, pid, before);
    LeavingKeepsInv(s, pid, before);
    if Accepts(slice, s.tables.labels, p.plan) {
      ValidateAcceptsThePlan(slice, s.tables.labels, p.plan, p.rows, p.sectors);
      MovingKeepsInv(s, pid, p.(phase := Rechecking), before);
    }
  }

  lemma CommitKeepsInv(s: State, pid: Pid, released: bool, before: map<Month, Plan>)
    requires Inv(s, before) && InPhase(s, pid, Committing)
    ensures Inv(Next(s, Commit(pid, released)), before)
  {
    hide PlanFits, KeysUnique, Holds, Sourced, MayCommit, CoverageHolds, AllKeysUnique;
    var p := s.publishers[pid];
    LeavingKeepsInv(s, pid, before);
    if MayCommit(s.tables, p.month, p.plan, released) {
      assert PublisherFits(p, s.tables.slices, s.tables.labels);
      IsSourced(p.plan, p.rows, p.sectors);
      CoverageGrows(s.tables, p.month, p.plan, before);
    }
  }

  lemma IsSourced(plan: Plan, rows: seq<Row>, sectors: map<Term, Sector>)
    requires OneRowEach(rows) && PlanFits(plan, rows, sectors)
    ensures Sourced(plan)
  {
  }

  lemma CoverageGrows(t: Tables, month: Month, plan: Plan, before: map<Month, Plan>)
    requires CoverageHolds(t, before) && Sourced(plan) && Holds(At(t.slices, month), t.labels, plan)
    ensures CoverageHolds(t.(coverage := t.coverage[month := plan]), before)
  {
    hide PlanFits, Holds, Sourced;
  }

  /** Publishers of this run hold the lock. */
  predicate Locked(steps: seq<Step>) { forall i :: 0 <= i < |steps| && steps[i].Begin? ==> steps[i].locked }

  lemma StepKeepsInv(s: State, step: Step, before: map<Month, Plan>)
    requires Inv(s, before) && (step.Begin? ==> step.locked)
    ensures Inv(Next(s, step), before)
  {
    match step
    case Begin(pid, month, locked) =>
      hide PlanFits, KeysUnique, CoverageHolds;
      assert LockFree(s) ==> s.publishers == map[];
    case Build(pid, rows, sectors, plan) =>
      if InPhase(s, pid, Planning) && OneRowEach(rows) && PlanFits(plan, rows, sectors) {
        MovingKeepsInv(s, pid, s.publishers[pid].(phase := Clearing(TermTable), rows := rows, sectors := sectors, plan := plan), before);
      }
    case Clear(pid) =>
      if pid in s.publishers && s.publishers[pid].phase.Clearing? { ClearKeepsInv(s, pid, before); }
    case Write(pid) =>
      if pid in s.publishers && s.publishers[pid].phase.Writing? { WriteKeepsInv(s, pid, before); }
    case Check(pid) =>
      if InPhase(s, pid, Validating) { CheckKeepsInv(s, pid, before); }
    case Recheck(pid, rows, sectors) =>
      LeavingKeepsInv(s, pid, before);
      if InPhase(s, pid, Rechecking) {
        PublisherOf(s, pid, before);
        MovingKeepsInv(s, pid, s.publishers[pid].(phase := Committing), before);
      }
    case Commit(pid, released) =>
      if InPhase(s, pid, Committing) { CommitKeepsInv(s, pid, released, before); }
    case Crash(pid) => LeavingKeepsInv(s, pid, before);
  }

  lemma {:induction false} RunKeepsInv(s: State, steps: seq<Step>, before: map<Month, Plan>)
    requires Inv(s, before) && Locked(steps)
    ensures Inv(After(s, steps), before)
    decreases |steps|
  {
    if steps != [] {
      hide Inv, Next;
      StepKeepsInv(s, steps[0], before);
      RunKeepsInv(Next(s, steps[0]), steps[1..], before);
    }
  }

  /**
   Publishers that hold the lock may crash after any statement and start again, over whatever rows
   were left behind: a month they publish holds exactly the rows of a plan of the source.
   */
  lemma PublishedRowsAreThePlan(tables: Tables, steps: seq<Step>, month: Month)
    requires AllKeysUnique(tables.slices) && Locked(steps)
    ensures var t := After(State(tables, map[]), steps).tables;
      month in t.coverage && month !in tables.coverage ==>
        Sourced(t.coverage[month]) && SameRows(At(t.slices, month), t.coverage[month]) && Labelled(t.coverage[month].metrics, t.labels)
  {
    RunKeepsInv(State(tables, map[]), steps, tables.coverage);
  }

  // ---------- months come out in order ----------

  lemma MonthsOnlyAdvance(s: State, steps: seq<Step>, earlier: Month, month: Month)
    requires earlier in s.tables.coverage && month !in s.tables.coverage && month in After(s, steps).tables.coverage
    ensures earlier < month
  {
    if month <= earlier { PublishedMonthsAreFrozen(s, steps, month); }
  }
}

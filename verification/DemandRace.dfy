/** Why publishers take the lock: without it, a month can be published over another plan's rows. */
module DemandRace {
  import opened Prelude
  import opened DemandPlan
  import opened DemandTotals
  import opened DemandTables
  import opened DemandPublication

  /** One product, seen under one keyword with traffic `t`. */
  function SmallRow(t: nat): Row { Row(1, 0, None, None, Some(Traffic(0, 0, Some([Item(Some(0), Some(t as real), None, None)])))) }

  function SmallObservation(t: nat): Observation { Observation(0, 1, None, 0, 1, t, 0, None, 0, 0) }

  function SmallMetric(t: nat): Metric { Metric(0, None, t, 0, 1, 0, 0) }

  function SmallPlan(t: nat): Plan { Plan([SmallObservation(t)], [SmallMetric(t)], [], Summary(1, 1, 1, 0, 1, 0, 1, 0, t)) }

  lemma SmallSource(t: nat)
    ensures OfRows([SmallRow(t)]) == [SmallObservation(t)] && SourceLimit([SmallRow(t)]) == 1
  {
    var rows, row := [SmallRow(t)], SmallRow(t);
    assert rows[..0] == [] && |Items(row)| == 1;
    assert OfRow(row, 0) == [] && OfRow(row, 1) == [Observe(row, 0)];
    assert Whole(Some(t as real)) == t;
    assert Observe(row, 0) == SmallObservation(t);
    assert OfRows(rows) == OfRows(rows[..0]) + OfRow(row, 1);
    assert Largest(rows[..0], ItemCount) == 0;
  }

  lemma SmallGroup(t: nat)
    ensures var obs := [SmallObservation(t)];
      && Ordered(Keywords(obs)) == [0] && Keywords(obs) == {0} && Products(obs) == {1} && Domains(obs) == {0} && Terms(obs) == {}
      && Group(obs, 0) == obs && Sum(obs, TrafficOf) == t && Largest(obs, VolumeOf) == 0 && Largest(obs, CaptureOf) == 0
      && Markets(obs, map[]) == {}
  {
    var obs := [SmallObservation(t)];
    assert obs[..0] == [];
    assert Keywords(obs) == {0};
    assert obs[0] in obs && Keywords(obs) == {0} && Products(obs) == {1} && Domains(obs) == {0} && Terms(obs) == {};
    OrderedLists({0});
    assert Ordered({0})[0] in Ordered({0});
    assert Group(obs, 0) == Group(obs[..0], 0) + [obs[0]];
    assert Sum(obs, TrafficOf) == Sum(obs[..0], TrafficOf) + t;
    assert Largest(obs[..0], VolumeOf) == 0 && Largest(obs[..0], CaptureOf) == 0;
  }

  lemma SmallPlanFits(t: nat)
    ensures PlanFits(SmallPlan(t), [SmallRow(t)], map[])
  {
    var obs := [SmallObservation(t)];
    SmallSource(t);
    SmallGroup(t);
    hide OfRows, SourceLimit, Keywords, Ordered, Group, Sum, Largest, Terms, Products, Domains, Markets;
    assert TermRows(obs, 0) == [] by { assert Ordered({}) == [] by { OrderedLists({}); } }
    assert [0][..0] == [];
    assert AllTermRows(obs, [0]) == AllTermRows(obs, []) + [];
  }

  // ---------- the run ----------

  function SmallSlice(t: nat): Slice { Slice([SmallObservation(t)], [SmallMetric(t)], []) }

  function At1(pid: Pid, phase: Phase, t: nat): Publisher { Publisher(1, false, phase, [SmallRow(t)], map[], SmallPlan(t)) }

  /** Month 1 holds `slice`, nothing is published, and these publishers are at work. */
  function Scene(slice: Slice, labels: set<Keyword>, publishers: map<Pid, Publisher>): State {
    State(Tables(map[1 := slice], labels, map[]), publishers)
  }

  lemma Thrice(s: State, a: Step, b: Step, c: Step)
    ensures After(s, [a, b, c]) == Next(Next(Next(s, a), b), c)
  {
    Twice(s, [a], [b, c]);
    Twice(Next(s, a), [b], [c]);
    Once(s, a);
    Once(Next(s, a), b);
    Once(Next(Next(s, a), b), c);
    assert [a] + [b, c] == [a, b, c] && [b] + [c] == [b, c];
  }

  /** The slice a small plan's part is written into, and the one that comes out. */
  function Before(part: Part, t: nat): Slice {
    if part.ObservationPart? then EMPTY
    else if part.LabelPart? || part.MetricPart? then Slice([SmallObservation(t)], [], [])
    else SmallSlice(t)
  }

  function Behind(part: Part, t: nat): Slice {
    if part.ObservationPart? || part.LabelPart? then Slice([SmallObservation(t)], [], []) else SmallSlice(t)
  }

  function NewLabel(part: Part): set<Keyword> { if part.LabelPart? then {0} else {} }

  lemma InsertsPart(part: Part, labels: set<Keyword>, t: nat)
    requires !part.TermPart?
    ensures InsertPage(Tables(map[1 := Before(part, t)], labels, map[]), 1, SmallPlan(t), part, 0)
         == Tables(map[1 := Behind(part, t)], labels + NewLabel(part), map[])
    ensures KeysUnique(Behind(part, t))
  {
    var plan := SmallPlan(t);
    assert plan.observations[0..1] == plan.observations && plan.metrics[0..1] == plan.metrics;
    assert [] + plan.observations == plan.observations && [] + plan.metrics == plan.metrics;
    assert plan.metrics[0].keyword == 0;
    assert PageEnd(plan, part, 0) == 1;
    assert InsertPage(Tables(map[1 := Before(part, t)], labels, map[]), 1, plan, part, 0).labels == labels + NewLabel(part);
  }

  lemma WritesPart(part: Part, labels: set<Keyword>, others: map<Pid, Publisher>, pid: Pid, t: nat)
    requires !part.TermPart?
    ensures var s := Scene(Before(part, t), labels, others[pid := At1(pid, Writing(part, 0), t)]);
      Next(Next(s, Write(pid)), Write(pid))
        == Scene(Behind(part, t), labels + NewLabel(part), others[pid := At1(pid, AfterPart(part), t)])
  {
    var s0 := Scene(Before(part, t), labels, others[pid := At1(pid, Writing(part, 0), t)]);
    var s1 := Scene(Behind(part, t), labels + NewLabel(part), others[pid := At1(pid, Writing(part, 1), t)]);
    var s2 := Scene(Behind(part, t), labels + NewLabel(part), others[pid := At1(pid, AfterPart(part), t)]);
    assert Size(SmallPlan(t), part) == 1 && PageEnd(SmallPlan(t), part, 0) == 1;
    InsertsPart(part, labels, t);
    hide PlanFits, Accepts, KeysUnique, InsertPage, Before, Behind, NewLabel, SmallPlan;
    assert Next(s0, Write(pid)) == s1 by { assert Next(s0, Write(pid)).publishers == s1.publishers; }
    assert Next(s1, Write(pid)) == s2 by { assert Next(s1, Write(pid)).publishers == s2.publishers; }
  }

  function Writes(pid: Pid): seq<Step> { [Write(pid), Write(pid)] + [Write(pid), Write(pid)] + [Write(pid), Write(pid)] + [Write(pid)] }

  lemma Pair(s: State, a: Step, b: Step)
    ensures After(s, [a, b]) == Next(Next(s, a), b)
  {
    Twice(s, [a], [b]);
    Once(s, a);
    Once(Next(s, a), b);
    assert [a] + [b] == [a, b];
  }

  lemma NoTerms(labels: set<Keyword>, others: map<Pid, Publisher>, pid: Pid, t: nat)
    ensures Next(Scene(SmallSlice(t), labels, others[pid := At1(pid, Writing(TermPart, 0), t)]), Write(pid))
         == Scene(SmallSlice(t), labels, others[pid := At1(pid, Validating, t)])
  {
    hide PlanFits, Accepts, KeysUnique;
    assert others[pid := At1(pid, Writing(TermPart, 0), t)][pid := At1(pid, Validating, t)] == others[pid := At1(pid, Validating, t)];
  }

  lemma WritesSmallPlan(labels: set<Keyword>, others: map<Pid, Publisher>, pid: Pid, t: nat)
    ensures After(Scene(EMPTY, labels, others[pid := At1(pid, Writing(ObservationPart, 0), t)]), Writes(pid))
         == Scene(SmallSlice(t), labels + {0}, others[pid := At1(pid, Validating, t)])
  {
    var w := Write(pid);
    var s0 := Scene(EMPTY, labels, others[pid := At1(pid, Writing(ObservationPart, 0), t)]);
    var s1 := Scene(Behind(ObservationPart, t), labels, others[pid := At1(pid, Writing(LabelPart, 0), t)]);
    var s2 := Scene(Behind(LabelPart, t), labels + {0}, others[pid := At1(pid, Writing(MetricPart, 0), t)]);
    var s3 := Scene(Behind(MetricPart, t), labels + {0}, others[pid := At1(pid, Writing(TermPart, 0), t)]);
    WritesPart(ObservationPart, labels, others, pid, t);
    assert labels + {} == labels && labels + {0} + {} == labels + {0};
    WritesPart(LabelPart, labels, others, pid, t);
    WritesPart(MetricPart, labels + {0}, others, pid, t);
    NoTerms(labels + {0}, others, pid, t);
    hide Next, Before, Behind, Scene;
    Pair(s0, w, w);
    Pair(s1, w, w);
    Pair(s2, w, w);
    Once(s3, w);
    Twice(s0, [w, w], [w, w]);
    Twice(s0, [w, w] + [w, w], [w, w]);
    Twice(s0, [w, w] + [w, w] + [w, w], [w]);
  }

  function Clears(pid: Pid): seq<Step> { [Clear(pid), Clear(pid), Clear(pid)] }

  lemma ClearsEmpty(labels: set<Keyword>, others: map<Pid, Publisher>, pid: Pid, t: nat)
    ensures After(Scene(EMPTY, labels, others[pid := At1(pid, Clearing(TermTable), t)]), Clears(pid))
         == Scene(EMPTY, labels, others[pid := At1(pid, Writing(ObservationPart, 0), t)])
  {
    var c := Clear(pid);
    var s0 := Scene(EMPTY, labels, others[pid := At1(pid, Clearing(TermTable), t)]);
    var s1 := Scene(EMPTY, labels, others[pid := At1(pid, Clearing(MetricTable), t)]);
    var s2 := Scene(EMPTY, labels, others[pid := At1(pid, Clearing(ObservationTable), t)]);
    assert Next(s0, c) == s1 by { assert Next(s0, c).publishers == s1.publishers; }
    assert Next(s1, c) == s2 by { assert Next(s1, c).publishers == s2.publishers; }
    Thrice(s0, c, c, c);
    var s3 := Scene(EMPTY, labels, others[pid := At1(pid, Writing(ObservationPart, 0), t)]);
    assert Next(s2, c).publishers == s3.publishers;
  }

  /** Clearing the rows another publisher has written: a page of metrics, then one of observations. */
  lemma ClearsWritten(labels: set<Keyword>, others: map<Pid, Publisher>, pid: Pid, t: nat, u: nat)
    ensures After(Scene(SmallSlice(u), labels, others[pid := At1(pid, Clearing(TermTable), t)]), [Clear(pid), Clear(pid)] + Clears(pid))
         == Scene(EMPTY, labels, others[pid := At1(pid, Writing(ObservationPart, 0), t)])
  {
    var c := Clear(pid);
    var rest := Slice([SmallObservation(u)], [], []);
    var s0 := Scene(SmallSlice(u), labels, others[pid := At1(pid, Clearing(TermTable), t)]);
    var s1 := Scene(SmallSlice(u), labels, others[pid := At1(pid, Clearing(MetricTable), t)]);
    var s2 := Scene(rest, labels, others[pid := At1(pid, Clearing(MetricTable), t)]);
    var s3 := Scene(rest, labels, others[pid := At1(pid, Clearing(ObservationTable), t)]);
    var s4 := Scene(EMPTY, labels, others[pid := At1(pid, Clearing(ObservationTable), t)]);
    var s5 := Scene(EMPTY, labels, others[pid := At1(pid, Writing(ObservationPart, 0), t)]);
    assert Next(s0, c) == s1 by { assert Next(s0, c).publishers == s1.publishers; }
    assert Next(s1, c) == s2 by { assert [SmallMetric(u)][1..] == []; }
    assert Next(s2, c) == s3 by { assert Next(s2, c).publishers == s3.publishers; }
    assert Next(s3, c) == s4 by { assert [SmallObservation(u)][1..] == []; }
    assert Next(s4, c) == s5 by { assert Next(s4, c).publishers == s5.publishers; }
    hide Next;
    Pair(s0, c, c);
    Thrice(s2, c, c, c);
    Twice(s0, [c, c], Clears(pid));
  }

  lemma Begins(s: State, pid: Pid)
    requires pid !in s.publishers && s.tables.coverage == map[]
    ensures Next(s, Begin(pid, 1, false)) == s.(publishers := s.publishers[pid := Publisher(1, false, Planning, [], map[], NOPLAN)])
  {
    hide PlanFits, Accepts;
  }

  lemma BuildsPlan(s: State, pid: Pid, rows: seq<Row>, plan: Plan)
    requires InPhase(s, pid, Planning) && OneRowEach(rows) && PlanFits(plan, rows, map[])
    ensures Next(s, Build(pid, rows, map[], plan)) == s.(publishers :=
      s.publishers[pid := s.publishers[pid].(phase := Clearing(TermTable), rows := rows, sectors := map[], plan := plan)])
  {
    hide PlanFits, Accepts, OneRowEach;
  }

  lemma BuildsSmallPlan(slice: Slice, labels: set<Keyword>, others: map<Pid, Publisher>, pid: Pid, t: nat)
    ensures Next(Scene(slice, labels, others[pid := Publisher(1, false, Planning, [], map[], NOPLAN)]),
                 Build(pid, [SmallRow(t)], map[], SmallPlan(t)))
         == Scene(slice, labels, others[pid := At1(pid, Clearing(TermTable), t)])
  {
    hide PlanFits, SmallPlan, SmallRow, Next, OneRowEach;
    var planning, built := Publisher(1, false, Planning, [], map[], NOPLAN), At1(pid, Clearing(TermTable), t);
    SmallPlanFits(t);
    OneSmallRow(t);
    BuildsPlan(Scene(slice, labels, others[pid := planning]), pid, [SmallRow(t)], SmallPlan(t));
    assert others[pid := planning][pid := built] == others[pid := built];
  }

  lemma OneSmallRow(t: nat)
    ensures OneRowEach([SmallRow(t)])
  {
  }

  lemma Plans(slice: Slice, labels: set<Keyword>, others: map<Pid, Publisher>, pid: Pid, t: nat)
    requires pid !in others
    ensures After(Scene(slice, labels, others), Builds(pid, t)) == Scene(slice, labels, others[pid := At1(pid, Clearing(TermTable), t)])
  {
    Begins(Scene(slice, labels, others), pid);
    BuildsSmallPlan(slice, labels, others, pid, t);
    hide SmallPlan, After, SmallRow, Next;
    Pair(Scene(slice, labels, others), Begin(pid, 1, false), Build(pid, [SmallRow(t)], map[], SmallPlan(t)));
  }

  function Builds(pid: Pid, t: nat): seq<Step> { [Begin(pid, 1, false), Build(pid, [SmallRow(t)], map[], SmallPlan(t))] }

  lemma SmallSliceAccepted(t: nat)
    ensures Accepts(SmallSlice(t), {0}, SmallPlan(t))
  {
    SmallPlanFits(t);
    ValidateAcceptsThePlan(SmallSlice(t), {0}, SmallPlan(t), [SmallRow(t)], map[]);
  }

  lemma FirstChecks()
    ensures After(Scene(SmallSlice(1), {0}, map[1 := At1(1, Validating, 1)]), [Check(1), Recheck(1, [SmallRow(1)], map[])])
         == Scene(SmallSlice(1), {0}, map[1 := At1(1, Committing, 1)])
  {
    var s0 := Scene(SmallSlice(1), {0}, map[1 := At1(1, Validating, 1)]);
    var s1 := Scene(SmallSlice(1), {0}, map[1 := At1(1, Rechecking, 1)]);
    var s2 := Scene(SmallSlice(1), {0}, map[1 := At1(1, Committing, 1)]);
    hide Accepts, After, PlanFits;
    assert Next(s0, Check(1)) == s1 by {
      SmallSliceAccepted(1);
      assert Next(s0, Check(1)).publishers == s1.publishers;
    }
    assert Next(s1, Recheck(1, [SmallRow(1)], map[])) == s2 by {
      assert Next(s1, Recheck(1, [SmallRow(1)], map[])).publishers == s2.publishers;
    }
    hide Next;
    Pair(s0, Check(1), Recheck(1, [SmallRow(1)], map[]));
  }

  /** The first publisher gets as far as its commit. */
  lemma FirstIsReady()
    ensures After(Scene(EMPTY, {}, map[]), Builds(1, 1) + Clears(1) + Writes(1) + [Check(1), Recheck(1, [SmallRow(1)], map[])])
         == Scene(SmallSlice(1), {0}, map[1 := At1(1, Committing, 1)])
  {
    var s0 := Scene(EMPTY, {}, map[]);
    var last := [Check(1), Recheck(1, [SmallRow(1)], map[])];
    Plans(EMPTY, {}, map[], 1, 1);
    ClearsEmpty({}, map[], 1, 1);
    WritesSmallPlan({}, map[], 1, 1);
    var s1 := Scene(SmallSlice(1), {0}, map[1 := At1(1, Validating, 1)]);
    assert {} + {0} == {0};
    FirstChecks();
    hide Next, Scene, After, Clears, Writes;
    Twice(s0, Builds(1, 1), Clears(1));
    Twice(s0, Builds(1, 1) + Clears(1), Writes(1));
    Twice(s0, Builds(1, 1) + Clears(1) + Writes(1), last);
  }

  /** The second one, started now, reads a changed source and rebuilds the month under the first one's feet. */
  lemma SecondRebuilds()
    ensures After(Scene(SmallSlice(1), {0}, map[1 := At1(1, Committing, 1)]),
                  Builds(2, 2) + ([Clear(2), Clear(2)] + Clears(2)) + Writes(2))
         == Scene(SmallSlice(2), {0}, map[1 := At1(1, Committing, 1), 2 := At1(2, Validating, 2)])
  {
    var first := map[1 := At1(1, Committing, 1)];
    var s0 := Scene(SmallSlice(1), {0}, first);
    Plans(SmallSlice(1), {0}, first, 2, 2);
    ClearsWritten({0}, first, 2, 2, 1);
    WritesSmallPlan({0}, first, 2, 2);
    assert {0} + {0} == {0};
    assert first[2 := At1(2, Validating, 2)] == map[1 := At1(1, Committing, 1), 2 := At1(2, Validating, 2)];
    hide Next, Scene, After, Clears, Writes;
    Twice(s0, Builds(2, 2), [Clear(2), Clear(2)] + Clears(2));
    Twice(s0, Builds(2, 2) + ([Clear(2), Clear(2)] + Clears(2)), Writes(2));
  }

  lemma CommitPublishes(slice: Slice, publishers: map<Pid, Publisher>)
    requires 1 in publishers && publishers[1] == At1(1, Committing, 1) && |slice.metrics| == 1 == |slice.observations|
    ensures Next(Scene(slice, {0}, publishers), Commit(1, true)).tables == Tables(map[1 := slice], {0}, map[1 := SmallPlan(1)])
  {
    hide SmallRow, PlanFits, Accepts, KeysUnique;
    var s := Scene(slice, {0}, publishers);
    assert SmallPlan(1).summary.terms == 1 && SmallPlan(1).summary.observations == 1;
    hide SmallPlan;
    assert MayCommit(s.tables, 1, SmallPlan(1), true);
    assert map[][1 := SmallPlan(1)] == map[1 := SmallPlan(1)];
  }

  lemma FirstCommits()
    ensures var t := Next(Scene(SmallSlice(2), {0}, map[1 := At1(1, Committing, 1), 2 := At1(2, Validating, 2)]), Commit(1, true)).tables;
      && 1 in t.coverage && Sourced(t.coverage[1]) && !SameRows(At(t.slices, 1), t.coverage[1])
  {
    hide Next;
    CommitPublishes(SmallSlice(2), map[1 := At1(1, Committing, 1), 2 := At1(2, Validating, 2)]);
    SmallPlanFits(1);
    IsSourced(SmallPlan(1), [SmallRow(1)], map[]);
    RowsDiffer();
    hide PlanFits, Sourced, SameRows, SmallRow, Accepts;
  }

  lemma RowsDiffer()
    ensures !SameRows(SmallSlice(2), SmallPlan(1))
  {
    var one, two := [SmallObservation(1)], [SmallObservation(2)];
    assert multiset(one)[SmallObservation(1)] == 1 && multiset(two)[SmallObservation(1)] == 0;
  }

  /** Two publishers that do not take the lock: the month goes public with the one's plan over the other's rows. */
  lemma UnlockedPublishersMix() returns (steps: seq<Step>)
    ensures var t := After(Scene(EMPTY, {}, map[]), steps).tables;
      && 1 in t.coverage && Sourced(t.coverage[1]) && !SameRows(At(t.slices, 1), t.coverage[1])
  {
    var start := Scene(EMPTY, {}, map[]);
    var first := Builds(1, 1) + Clears(1) + Writes(1) + [Check(1), Recheck(1, [SmallRow(1)], map[])];
    var second := Builds(2, 2) + ([Clear(2), Clear(2)] + Clears(2)) + Writes(2);
    var ready := Scene(SmallSlice(2), {0}, map[1 := At1(1, Committing, 1), 2 := At1(2, Validating, 2)]);
    steps := first + second + [Commit(1, true)];
    FirstIsReady();
    SecondRebuilds();
    FirstCommits();
    hide Next, After, Scene, SameRows, Sourced;
    Twice(start, first, second);
    Twice(start, first + second, [Commit(1, true)]);
    Once(ready, Commit(1, true));
  }
}

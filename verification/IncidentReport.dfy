/** The rollback report: one plan per member, whether it may be applied, and the checks before it is. */
module IncidentReport {
  import opened Prelude
  import opened IncidentPlan

  /** What an audit row is about, within its run. */
  datatype Subject = RunItself | EntityState | ProfileState | AssignmentState(id: AssignmentId)

  function SubjectOf(effect: Effect): Subject {
    match effect
    case AssignmentEffect(id, _) => AssignmentState(id)
    case EntityEffect(_, _) => EntityState
    case ProfileEffect(_) => ProfileState
  }

  predicate OneEffectEach(effects: seq<Effect>) {
    forall i, j :: 0 <= i < j < |effects| ==> SubjectOf(effects[i]) != SubjectOf(effects[j])
  }

  // ---------- build_rollback_plan ----------

  predicate TouchesManual(plan: MemberPlan) { plan.current.Some? && plan.current.value.source == Manual && plan.effects != [] }

  predicate TouchesGold(plan: MemberPlan) { plan.gold && exists i :: 0 <= i < |plan.effects| && plan.effects[i].AssignmentEffect? }

  predicate TouchesRepaired(plan: MemberPlan) { plan.action == Repaired && plan.effects != [] }

  /** Nothing in the member keeps the whole plan from being applied. */
  predicate Clear(plan: MemberPlan) {
    && !TouchesManual(plan) && !TouchesGold(plan) && !TouchesRepaired(plan)
    && !Undecided(plan.action) && !plan.active && plan.blockers == {}
  }

  method BuildPlan(members: seq<Member>, evidence: seq<Evidence>, cutoff: Option<Time>, prompt: Option<nat>)
    returns (plans: seq<MemberPlan>, ready: bool)
    requires |members| == |evidence|
    requires forall k, i, j :: 0 <= k < |evidence| && 0 <= i < j < |evidence[k].runs| ==> evidence[k].runs[i].id != evidence[k].runs[j].id
    ensures |plans| == |members| && forall i :: 0 <= i < |members| ==> Planned(plans[i], members[i], evidence[i])
    ensures ready <==> forall i :: 0 <= i < |plans| ==> Clear(plans[i])
  {
    hide Planned;
    plans := [];
    var manual, gold, repaired, undecided, active, blocked := 0, 0, 0, 0, 0, 0;
    for i := 0 to |members|
      invariant |plans| == i && forall j :: 0 <= j < i ==> Planned(plans[j], members[j], evidence[j])
      invariant manual >= 0 && gold >= 0 && repaired >= 0 && undecided >= 0 && active >= 0 && blocked >= 0
      invariant manual + gold + repaired + undecided + active + blocked == 0 <==> forall j :: 0 <= j < i ==> Clear(plans[j])
    {
      var plan := PlanMember(members[i], evidence[i], cutoff, prompt);
      plans := plans + [plan];
      hide TouchesManual, TouchesGold, TouchesRepaired;
      if TouchesManual(plan) { manual := manual + 1; }
      if TouchesGold(plan) { gold := gold + 1; }
      if TouchesRepaired(plan) { repaired := repaired + 1; }
      if Undecided(plan.action) { undecided := undecided + 1; }
      if plan.active { active := active + 1; }
      if plan.blockers != {} { blocked := blocked + 1; }
    }
    ready := manual == 0 && gold == 0 && repaired == 0 && undecided == 0 && active == 0 && blocked == 0;
  }

  // ---------- what a plan can contain ----------

  /** A member whose provenance is open to doubt, or whose tool is gone, is planned without effects. */
  lemma UndecidedMembersCarryNothing(plan: MemberPlan, member: Member, e: Evidence)
    requires Planned(plan, member, e) && Undecided(plan.action)
    ensures plan.effects == [] && !plan.eligible
  {
  }

  predicate Standing(a: Assignment, run: RunId) { a.run == Some(run) && a.source == Auto && !Terminal(a.status) }

  function Superseding(a: Assignment): Effect { AssignmentEffect(a.id, a.status) }

  ghost predicate Supersedes(assignments: seq<Assignment>, run: RunId, effect: Effect) {
    exists a :: a in assignments && Standing(a, run) && effect == Superseding(a)
  }

  lemma {:induction false} AssignmentEffectsAre(assignments: seq<Assignment>, run: RunId)
    ensures forall x :: x in AssignmentEffects(assignments, run) <==> Supersedes(assignments, run, x)
    ensures (forall i, j :: 0 <= i < j < |assignments| ==> assignments[i].id != assignments[j].id) ==>
      OneEffectEach(AssignmentEffects(assignments, run))
  {
    if assignments != [] {
      var front, a := assignments[..|assignments| - 1], assignments[|assignments| - 1];
      AssignmentEffectsAre(front, run);
      assert forall x :: x in assignments <==> x in front || x == a;
      var before := AssignmentEffects(front, run);
      forall x ensures Supersedes(assignments, run, x) <==> Supersedes(front, run, x) || (Standing(a, run) && x == Superseding(a)) {
        if Supersedes(front, run, x) {
          var b :| b in front && Standing(b, run) && x == Superseding(b);
          assert b in assignments;
        }
        assert Standing(a, run) && x == Superseding(a) ==> a in assignments;
      }
      hide Supersedes;
      assert forall x :: x in before + [Superseding(a)] <==> x in before || x == Superseding(a);
      if forall i, j :: 0 <= i < j < |assignments| ==> assignments[i].id != assignments[j].id {
        forall i | 0 <= i < |before| ensures SubjectOf(before[i]) != AssignmentState(a.id) {
          assert before[i] in before;
          EarlierSubject(front, run, before[i], a.id);
        }
      }
    }
  }

  lemma EarlierSubject(assignments: seq<Assignment>, run: RunId, effect: Effect, id: AssignmentId)
    requires Supersedes(assignments, run, effect) && forall i :: 0 <= i < |assignments| ==> assignments[i].id != id
    ensures SubjectOf(effect) != AssignmentState(id)
  {
  }

  /** The shape of every effect of a member that may be applied. */
  predicate SoundEffect(plan: MemberPlan, effect: Effect) {
    match effect
    case EntityEffect(from, to) =>
      plan.current == Some(from) && from == Entity(NonProduct, Auto) && to.source == Auto && (plan.action == Restore || plan.action == Reset)
    case AssignmentEffect(_, before) => !Terminal(before) && !plan.gold
    case ProfileEffect(_) => true
  }

  predicate Sound(plan: MemberPlan) {
    && plan.run.Some? && OneEffectEach(plan.effects)
    && forall i :: 0 <= i < |plan.effects| ==> SoundEffect(plan, plan.effects[i])
  }

  /** A member the report lets through has a captured run, and effects on different rows, none of them manual. */
  lemma ClearMembersAreSound(plan: MemberPlan, member: Member, e: Evidence)
    requires Planned(plan, member, e) && Clear(plan)
    requires forall i, j :: 0 <= i < j < |e.assignments| ==> e.assignments[i].id != e.assignments[j].id
    ensures Sound(plan)
  {
    var tool := e.tool.value;
    var incident, survivor :| Decided(plan, member, e, tool, incident, survivor);
    ClearParts(plan, member, e, tool, incident, survivor);
    var one := AssignmentEffects(e.assignments, incident.value.id);
    var two := EntityEffects(plan.action, tool.entity, survivor);
    var three := plan.effects[|one| + |two|..];
    AssignmentEffectsAre(e.assignments, incident.value.id);
    hide Planned, Decided, AssignmentEffects, EntityEffects, Clear, OneEffectEach, SoundEffect;
    forall x | x in one ensures x.AssignmentEffect? && !Terminal(x.before) {
      assert Supersedes(e.assignments, incident.value.id, x);
    }
    ThreeSorts(one, two, three);
    EffectsAreSound(plan, one, two, three);
  }

  lemma ClearParts(plan: MemberPlan, member: Member, e: Evidence, tool: Tool, incident: Option<Run>, survivor: Option<Run>)
    requires Decided(plan, member, e, tool, incident, survivor) && Clear(plan) && plan.current == Some(tool.entity)
    ensures incident.Some? && plan.run.Some?
    ensures var one := AssignmentEffects(e.assignments, incident.value.id);
      var two := EntityEffects(plan.action, tool.entity, survivor);
      && |one| + |two| <= |plan.effects| <= |one| + |two| + 1
      && plan.effects == one + two + plan.effects[|one| + |two|..]
      && (forall x :: x in plan.effects[|one| + |two|..] ==> x.ProfileEffect?)
      && |two| <= 1 && forall x :: x in two ==> x.EntityEffect? && SoundEffect(plan, x)
  {
    hide Captured, SurvivorFits, AssignmentEffects, SomeLaterClean, SomeRestorable, ProfileMatches, PointsToNonAuto, IsGold,
      TouchesManual, TouchesGold, TouchesRepaired;
  }

  lemma EffectsAreSound(plan: MemberPlan, one: seq<Effect>, two: seq<Effect>, three: seq<Effect>)
    requires plan.effects == one + two + three && !TouchesGold(plan)
    requires forall x :: x in one ==> x.AssignmentEffect? && !Terminal(x.before)
    requires forall x :: x in two ==> SoundEffect(plan, x)
    requires forall x :: x in three ==> x.ProfileEffect?
    ensures forall i :: 0 <= i < |plan.effects| ==> SoundEffect(plan, plan.effects[i])
  {
    forall i | 0 <= i < |plan.effects| ensures SoundEffect(plan, plan.effects[i]) {
      assert i < |one| ==> plan.effects[i] == one[i] && one[i] in one;
      assert |one| <= i < |one| + |two| ==> plan.effects[i] in two;
      assert |one| + |two| <= i ==> plan.effects[i] in three;
    }
  }

  lemma ThreeSorts(one: seq<Effect>, two: seq<Effect>, three: seq<Effect>)
    requires OneEffectEach(one) && |two| <= 1 && |three| <= 1
    requires forall x :: x in one ==> x.AssignmentEffect?
    requires forall x :: x in two ==> x.EntityEffect?
    requires forall x :: x in three ==> x.ProfileEffect?
    ensures OneEffectEach(one + two + three)
  {
    var all := one + two + three;
    forall i, j | 0 <= i < j < |all| ensures SubjectOf(all[i]) != SubjectOf(all[j]) {
      assert i < |one| ==> all[i] == one[i] && one[i] in one;
      assert j < |one| ==> all[j] == one[j];
      assert |one| <= i < |one| + |two| ==> all[i] in two;
      assert |one| <= j < |one| + |two| ==> all[j] in two;
      assert |one| + |two| <= j ==> all[j] in three;
    }
  }

  /**
   A restored entity takes the kind of the latest earlier run that is clean, accepted and resolved,
   its incident run was captured, and no clean run came later.
   */
  lemma RestoreUsesTheLatestCleanRun(plan: MemberPlan, member: Member, e: Evidence)
    requires Planned(plan, member, e) && plan.action == Restore
    ensures exists incident, survivor ::
      && Captured(member, incident, e.runs) && LatestRestorable(survivor, e.runs, incident) && !SomeLaterClean(e.runs, incident)
      && plan.survivor == Some(survivor.id) && survivor.kind.Some?
      && EntityEffect(Entity(NonProduct, Auto), Entity(survivor.kind.value, Auto)) in plan.effects
  {
    var tool := e.tool.value;
    var incident, survivor :| Decided(plan, member, e, tool, incident, survivor);
    var effect := EntityEffect(Entity(NonProduct, Auto), Entity(survivor.value.kind.value, Auto));
    RestorableHasKind(survivor.value, incident.value);
    assert EntityEffects(plan.action, tool.entity, survivor) == [effect];
    var at := |AssignmentEffects(e.assignments, incident.value.id)|;
    assert plan.effects[at] == effect;
    hide LaterClean, Restorable, Earlier, Captured, AssignmentEffects;
  }

  // ---------- validate_plan ----------

  predicate Valid(plans: seq<MemberPlan>) { plans != [] && AllValid(plans) && DifferentMembers(plans) }

  predicate AllValid(plans: seq<MemberPlan>) { forall i :: 0 <= i < |plans| ==> ValidMember(plans[i]) }

  predicate DifferentMembers(plans: seq<MemberPlan>) {
    forall i, j :: 0 <= i < j < |plans| ==> plans[i].tool != plans[j].tool && plans[i].run != plans[j].run
  }

  predicate ValidMember(plan: MemberPlan) {
    plan.run.Some? && !Undecided(plan.action) && plan.blockers == {} && !TouchesManual(plan)
  }

  function ToolsOf(plans: seq<MemberPlan>): set<ToolId> { set p | p in plans :: p.tool }

  function RunsOf(plans: seq<MemberPlan>): set<RunId> { set p | p in plans && p.run.Some? :: p.run.value }

  lemma OneMoreMember(plans: seq<MemberPlan>, plan: MemberPlan)
    requires AllValid(plans) && DifferentMembers(plans) && plan.run.Some?
    ensures AllValid(plans + [plan]) <==> ValidMember(plan)
    ensures DifferentMembers(plans + [plan]) <==> plan.tool !in ToolsOf(plans) && plan.run.value !in RunsOf(plans)
    ensures ToolsOf(plans + [plan]) == ToolsOf(plans) + {plan.tool}
    ensures RunsOf(plans + [plan]) == RunsOf(plans) + {plan.run.value}
  {
    hide ValidMember;
    var more := plans + [plan];
    assert more[|plans|] == plan && forall i :: 0 <= i < |plans| ==> more[i] == plans[i];
    assert forall p :: p in more <==> p in plans || p == plan;
    forall i | 0 <= i < |plans| ensures plans[i].tool in ToolsOf(plans) && (plans[i].run.Some? ==> plans[i].run.value in RunsOf(plans)) {
      assert plans[i] in plans;
    }
  }

  lemma PrefixStaysValid(plans: seq<MemberPlan>, n: nat)
    requires n <= |plans| && AllValid(plans) && DifferentMembers(plans)
    ensures AllValid(plans[..n]) && DifferentMembers(plans[..n])
  {
  }

  method ValidatePlan(plans: seq<MemberPlan>) returns (ok: bool)
    ensures ok <==> Valid(plans)
  {
    if plans == [] { return false; }
    var seenTools: set<ToolId>, seenRuns: set<RunId> := {}, {};
    for i := 0 to |plans|
      invariant AllValid(plans[..i]) && DifferentMembers(plans[..i])
      invariant seenTools == ToolsOf(plans[..i]) && seenRuns == RunsOf(plans[..i])
    {
      var plan := plans[i];
      assert plans[..i + 1] == plans[..i] + [plan];
      if AllValid(plans) && DifferentMembers(plans) { PrefixStaysValid(plans, i + 1); }
      hide AllValid, DifferentMembers, ToolsOf, RunsOf, TouchesManual, Undecided;
      OneOfAll(plans, i);
      if plan.run.None? { return false; }
      OneMoreMember(plans[..i], plan);
      if plan.tool in seenTools || plan.run.value in seenRuns { return false; }
      if Undecided(plan.action) || plan.blockers != {} || TouchesManual(plan) { return false; }
      seenTools, seenRuns := seenTools + {plan.tool}, seenRuns + {plan.run.value};
    }
    assert plans[..|plans|] == plans;
    return true;
  }

  lemma OneOfAll(plans: seq<MemberPlan>, i: nat)
    requires i < |plans|
    ensures AllValid(plans) ==> ValidMember(plans[i])
  {
  }

  // ---------- members under a manual decision ----------

  /** The captured run was the incident's, and nothing that leans on it is in doubt. */
  ghost predicate Undoubted(member: Member, e: Evidence, tool: Tool, run: Run) {
    && Captured(member, run, e.runs) && run.kind == Some(NonProduct) && run.refused
    && !PointsToNonAuto(e.assignments, run.id) && !(ProfileMatches(tool, run) && SomeLaterClean(e.runs, run))
  }

  /**
   A tool somebody decided upon by hand is to be left as it is; the report and the validation let it
   through all the same, exactly when its provenance is beyond doubt.
   */
  lemma DecidedMembersAreAdmitted(plan: MemberPlan, member: Member, e: Evidence)
    requires Planned(plan, member, e) && e.tool.Some? && e.manualDecision && e.tool.value.entity.source == Auto
    requires forall i, j :: 0 <= i < j < |e.runs| ==> e.runs[i].id != e.runs[j].id
    ensures plan.action == Protected
    ensures Clear(plan) && ValidMember(plan) <==>
      !e.activeRequest && !TouchesGold(plan) && exists run :: Undoubted(member, e, e.tool.value, run)
  {
    var tool := e.tool.value;
    var incident, survivor :| Decided(plan, member, e, tool, incident, survivor);
    hide ProfileMatches, SomeLaterClean, PointsToNonAuto, SurvivorFits, EffectsFit, TouchesGold, Restorable;
    if Clear(plan) && ValidMember(plan) {
      assert Undoubted(member, e, tool, incident.value);
    }
    if run :| Undoubted(member, e, tool, run) {
      assert incident == Some(run);
    }
  }

  /** Such members exist. */
  lemma OneDecidedMember(t: ToolId, id: RunId, created: Time) returns (plan: MemberPlan, member: Member, e: Evidence)
    ensures Planned(plan, member, e) && plan.tool == t && Clear(plan) && ValidMember(plan)
    ensures e.manualDecision && e.tool.Some? && e.tool.value.entity.source == Auto
    ensures e.assignments == []
  {
    var run := Run(id, t, created, 0, true, Some(NonProduct), false, false, false);
    var tool := Tool(Entity(NonProduct, Auto), None);
    member, e := Member(t, Some(id)), Evidence(Some(tool), [run], [], true, false);
    plan := MemberPlan(t, Some(id), Some(tool.entity), Protected, true, {}, false, false, None, []);
    assert Captured(member, run, e.runs);
    assert !SomeLaterClean(e.runs, run);
    IsPlanned(plan, member, e, tool, Some(run), None);
  }
}

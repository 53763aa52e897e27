/** The read-only planner of a taxonomy incident rollback. */
module IncidentPlan {
  import opened Prelude

  type ToolId = nat
  type RunId = nat
  type AssignmentId = nat
  type Time = int

  const ONE_HOUR := 3600000

  datatype Kind = NonProduct | Unresolved | Listed(name: nat)

  datatype Source = Auto | Manual | Legacy

  datatype Status = Proposed | AutoAccepted | Verified | NeedsReview | LegacyMapped | Superseded | Rejected

  datatype Entity = Entity(kind: Kind, source: Source)

  /** What identifies one version of a materialised profile. */
  datatype Stamp = Stamp(version: nat, extracted: Time, updated: Time)

  datatype Profile = Profile(stamp: Stamp, neutral: bool)

  datatype Tool = Tool(entity: Entity, profile: Option<Profile>)

  /** `refused` is the error of a tool found to be no product; `kind` is None when it is none of the known kinds. */
  datatype Run = Run(
    id: RunId, tool: ToolId, created: Time, prompt: nat, refused: bool, kind: Option<Kind>, accepted: bool,
    neutral: bool, blocked: bool)

  datatype Assignment = Assignment(
    id: AssignmentId, tool: ToolId, run: Option<RunId>, source: Source, status: Status, primary: bool, inPrimaryCategory: bool)

  datatype Member = Member(tool: ToolId, run: Option<RunId>)

  datatype Provenance = CapturedRun | MissingCapturedRun | MismatchedRun | DerivedRun | MissingPointer

  datatype Blocker =
    | ToolNotFound | CapturedRunNotFound | CapturedRunToolMismatch | CapturedRunNotNonProduct | CapturedRunErrorMismatch
    | PointerNotReconstructed | PointerNotCaptured | NonAutoAssignment | ActiveRequest | EntityDisagrees | ProfileSurvived

  datatype Action = Investigate | Ambiguous | Protected | Repaired | AuditOnly | Restore | Reset

  datatype Effect =
    | AssignmentEffect(id: AssignmentId, before: Status)
    | EntityEffect(from: Entity, to: Entity)
    | ProfileEffect(stamp: Stamp)

  /** `current` is None when the tool is gone; `gold` says a verified manual primary exists. */
  datatype MemberPlan = MemberPlan(
    tool: ToolId, run: Option<RunId>, current: Option<Entity>, action: Action, eligible: bool, blockers: set<Blocker>,
    active: bool, gold: bool, survivor: Option<RunId>, effects: seq<Effect>)

  /** The rows of one tool that the planner reads. */
  datatype Evidence = Evidence(
    tool: Option<Tool>, runs: seq<Run>, assignments: seq<Assignment>, manualDecision: bool, activeRequest: bool)

  // ---------- runs ----------

  predicate Earlier(a: Run, b: Run) { a.created < b.created || (a.created == b.created && a.id < b.id) }

  predicate Clean(run: Run) { run.kind.Some? && !run.neutral && !run.blocked }

  predicate LaterClean(run: Run, incident: Run) { Earlier(incident, run) && Clean(run) }

  /** A run whose decision may be restored. */
  predicate Restorable(run: Run, incident: Run) {
    Earlier(run, incident) && Clean(run) && run.kind != Some(Unresolved) && run.accepted
  }

  predicate LatestAmong(run: Run, runs: seq<Run>) { run in runs && forall r :: r in runs ==> !Earlier(run, r) }

  method Latest(runs: seq<Run>) returns (latest: Run)
    requires runs != []
    ensures LatestAmong(latest, runs)
  {
    latest := runs[0];
    for i := 1 to |runs|
      invariant latest in runs && forall j :: 0 <= j < i ==> !Earlier(latest, runs[j])
    {
      if !Earlier(runs[i], latest) { latest := runs[i]; }
    }
  }

  method CleanRuns(runs: seq<Run>, incident: Run) returns (later: seq<Run>, prior: seq<Run>)
    ensures forall r :: r in later <==> r in runs && LaterClean(r, incident)
    ensures forall r :: r in prior <==> r in runs && Restorable(r, incident)
  {
    later, prior := [], [];
    for i := 0 to |runs|
      invariant forall r :: r in later <==> r in runs[..i] && LaterClean(r, incident)
      invariant forall r :: r in prior <==> r in runs[..i] && Restorable(r, incident)
    {
      hide LaterClean, Restorable;
      assert runs[..i + 1] == runs[..i] + [runs[i]];
      if LaterClean(runs[i], incident) { later := later + [runs[i]]; }
      if Restorable(runs[i], incident) { prior := prior + [runs[i]]; }
    }
    assert runs[..|runs|] == runs;
  }

  /** A run the planner may take for the incident's when no pointer was captured. */
  predicate Candidate(run: Run, cutoff: Option<Time>, prompt: Option<nat>) {
    && (cutoff.Some? ==> run.created <= cutoff.value) && (prompt.Some? ==> run.prompt == prompt.value)
    && run.refused && run.kind == Some(NonProduct)
  }

  function IdOf(run: Option<Run>): Option<RunId> { if run.Some? then Some(run.value.id) else None }

  /** A pointer that was captured and names a run of the tool. */
  ghost predicate Captured(member: Member, run: Run, runs: seq<Run>) {
    run in runs && member.run == Some(run.id) && run.tool == member.tool
  }

  ghost predicate Named(member: Member, runs: seq<Run>) {
    member.run.Some? && exists r :: r in runs && r.id == member.run.value
  }

  /** A captured pointer decides alone: the run it names, when that is a run of the tool, and no other. */
  ghost predicate PointerDecides(member: Member, runs: seq<Run>, run: Option<Run>) {
    && (run.Some? ==> run.value in runs)
    && (member.run.Some? ==>
          && (run.Some? ==> Captured(member, run.value, runs))
          && (run.None? ==> forall r :: !Captured(member, r, runs)))
  }

  ghost predicate LatestCandidate(run: Run, runs: seq<Run>, cutoff: Option<Time>, prompt: Option<nat>) {
    Candidate(run, cutoff, prompt) && forall r :: r in runs && Candidate(r, cutoff, prompt) ==> !Earlier(run, r)
  }

  /** Without a pointer it is the latest candidate, if there is one. */
  ghost predicate CandidateDecides(member: Member, runs: seq<Run>, cutoff: Option<Time>, prompt: Option<nat>, run: Option<RunId>) {
    member.run.None? ==>
      if run.None? then forall r :: r in runs ==> !Candidate(r, cutoff, prompt)
      else exists r :: r in runs && r.id == run.value && LatestCandidate(r, runs, cutoff, prompt)
  }

  /** Why the provenance of the incident's run is in doubt. */
  ghost function RunBlockers(member: Member, runs: seq<Run>, run: Option<Run>): set<Blocker> {
    if member.run.None? then {if run.None? then PointerNotReconstructed else PointerNotCaptured}
    else if run.None? then {if Named(member, runs) then CapturedRunToolMismatch else CapturedRunNotFound}
    else
      (if run.value.kind != Some(NonProduct) then {CapturedRunNotNonProduct} else {})
        + if !run.value.refused then {CapturedRunErrorMismatch} else {}
  }

  method FindIncidentRun(member: Member, runs: seq<Run>, cutoff: Option<Time>, prompt: Option<nat>)
    returns (run: Option<Run>, provenance: Provenance, blockers: set<Blocker>)
    requires forall i, j :: 0 <= i < j < |runs| ==> runs[i].id != runs[j].id
    ensures PointerDecides(member, runs, run) && blockers == RunBlockers(member, runs, run)
    ensures provenance == CapturedRun <==> run.Some? && Captured(member, run.value, runs)
    ensures CandidateDecides(member, runs, cutoff, prompt, IdOf(run))
    ensures run.Some? <==> provenance == CapturedRun || provenance == DerivedRun
  {
    if member.run.Some? {
      run := None;
      for i := 0 to |runs|
        invariant run.None? ==> forall j :: 0 <= j < i ==> runs[j].id != member.run.value
        invariant run.Some? ==> run.value in runs && run.value.id == member.run.value
      {
        if runs[i].id == member.run.value { run := Some(runs[i]); }
      }
      if run.None? { return None, MissingCapturedRun, {CapturedRunNotFound}; }
      if run.value.tool != member.tool { return None, MismatchedRun, {CapturedRunToolMismatch}; }
      blockers := {};
      if run.value.kind != Some(NonProduct) { blockers := blockers + {CapturedRunNotNonProduct}; }
      if !run.value.refused { blockers := blockers + {CapturedRunErrorMismatch}; }
      assert Captured(member, run.value, runs);
      return run, CapturedRun, blockers;
    }
    var candidates := [];
    for i := 0 to |runs|
      invariant forall r :: r in candidates <==> r in runs[..i] && Candidate(r, cutoff, prompt)
    {
      assert runs[..i + 1] == runs[..i] + [runs[i]];
      if Candidate(runs[i], cutoff, prompt) { candidates := candidates + [runs[i]]; }
    }
    assert runs[..|runs|] == runs;
    if candidates == [] { return None, MissingPointer, {PointerNotReconstructed}; }
    var chosen := Latest(candidates);
    return Some(chosen), DerivedRun, {PointerNotCaptured};
  }

  // ---------- effects ----------

  predicate Terminal(status: Status) { status == Superseded || status == Rejected }

  /** The assignments a run made automatically and that still stand, in order. */
  function AssignmentEffects(assignments: seq<Assignment>, run: RunId): seq<Effect> {
    if assignments == [] then []
    else
      var before, a := AssignmentEffects(assignments[..|assignments| - 1], run), assignments[|assignments| - 1];
      if a.run == Some(run) && a.source == Auto && !Terminal(a.status) then before + [AssignmentEffect(a.id, a.status)] else before
  }

  predicate PointsToNonAuto(assignments: seq<Assignment>, run: RunId) {
    exists a :: a in assignments && a.run == Some(run) && a.source != Auto
  }

  method PlanAssignments(assignments: seq<Assignment>, run: RunId) returns (effects: seq<Effect>, blockers: set<Blocker>)
    ensures effects == AssignmentEffects(assignments, run)
    ensures blockers == if PointsToNonAuto(assignments, run) then {NonAutoAssignment} else {}
  {
    effects, blockers := [], {};
    for i := 0 to |assignments|
      invariant effects == AssignmentEffects(assignments[..i], run)
      invariant blockers == if PointsToNonAuto(assignments[..i], run) then {NonAutoAssignment} else {}
    {
      var a := assignments[i];
      assert assignments[..i + 1][..i] == assignments[..i];
      assert forall x :: x in assignments[..i + 1] <==> x in assignments[..i] || x == a;
      if a.run == Some(run) {
        if a.source != Auto {
          blockers := blockers + {NonAutoAssignment};
        } else if !Terminal(a.status) {
          effects := effects + [AssignmentEffect(a.id, a.status)];
        }
      }
    }
    assert assignments[..|assignments|] == assignments;
  }

  predicate ProfileMatches(tool: Tool, incident: Run) {
    && tool.profile.Some? && tool.profile.value.neutral
    && -ONE_HOUR <= incident.created - tool.profile.value.stamp.extracted <= ONE_HOUR
  }

  // ---------- one member ----------

  ghost predicate SomeLaterClean(runs: seq<Run>, incident: Run) { exists r :: r in runs && LaterClean(r, incident) }

  ghost predicate SomeRestorable(runs: seq<Run>, incident: Run) { exists r :: r in runs && Restorable(r, incident) }

  predicate Undecided(action: Action) { action == Ambiguous || action == Investigate }

  /** Which of the actions is right, given the incident's run if it was found. */
  ghost predicate ActionFits(action: Action, e: Evidence, tool: Tool, incident: Option<Run>, captured: bool) {
    var guarded := tool.entity.source == Manual || e.manualDecision;
    var later := incident.Some? && SomeLaterClean(e.runs, incident.value);
    var polluted := tool.entity == Entity(NonProduct, Auto);
    && action != Investigate
    && (action == Protected <==> guarded)
    && (action == AuditOnly <==> !guarded && incident.Some? && !later && !polluted)
    && (action == Restore <==>
          !guarded && captured && incident.Some? && !later && polluted && SomeRestorable(e.runs, incident.value))
    && (action == Reset <==>
          !guarded && captured && incident.Some? && !later && polluted && !SomeRestorable(e.runs, incident.value))
    && (action == Repaired ==> !guarded && later)
    && (!guarded && later && action != Repaired ==> action == Ambiguous)
  }

  ghost predicate LatestRestorable(run: Run, runs: seq<Run>, incident: Run) {
    run in runs && Restorable(run, incident) && forall r :: r in runs && Restorable(r, incident) ==> !Earlier(run, r)
  }

  ghost predicate LatestClean(run: Run, runs: seq<Run>, incident: Run) {
    run in runs && LaterClean(run, incident) && forall r :: r in runs && LaterClean(r, incident) ==> !Earlier(run, r)
  }

  /** The latest run of its sort decides: what is restored, or whether a later run has repaired the tool. */
  ghost predicate SurvivorFits(action: Action, e: Evidence, tool: Tool, incident: Option<Run>, survivor: Option<Run>) {
    && (action == Restore ==>
          incident.Some? && survivor.Some? && LatestRestorable(survivor.value, e.runs, incident.value))
    && (incident.Some? && action != Protected && SomeLaterClean(e.runs, incident.value) ==>
          && survivor.Some? && LatestClean(survivor.value, e.runs, incident.value)
          && (action == Repaired <==> tool.entity.source == Auto && survivor.value.kind == Some(tool.entity.kind)))
  }

  /** The change of the current entity, if the action makes one. */
  function EntityEffects(action: Action, current: Entity, survivor: Option<Run>): seq<Effect> {
    if action == Restore && survivor.Some? && survivor.value.kind.Some? then
      [EntityEffect(current, Entity(survivor.value.kind.value, Auto))]
    else if action == Reset then [EntityEffect(current, Entity(Unresolved, Auto))]
    else []
  }

  ghost predicate EffectsFit(plan: MemberPlan, e: Evidence, tool: Tool, incident: Option<Run>, survivor: Option<Run>) {
    if Undecided(plan.action) || incident.None? then plan.effects == []
    else
      plan.effects == AssignmentEffects(e.assignments, incident.value.id) + EntityEffects(plan.action, tool.entity, survivor)
        + if ProfileMatches(tool, incident.value) && !SomeLaterClean(e.runs, incident.value)
          then [ProfileEffect(tool.profile.value.stamp)] else []
  }

  /** Everything that speaks against acting on the member. */
  ghost function AllBlockers(action: Action, member: Member, e: Evidence, tool: Tool, incident: Option<Run>): set<Blocker> {
    var later := incident.Some? && SomeLaterClean(e.runs, incident.value);
    RunBlockers(member, e.runs, incident)
      + (if incident.Some? && PointsToNonAuto(e.assignments, incident.value.id) then {NonAutoAssignment} else {})
      + (if e.activeRequest then {ActiveRequest} else {})
      + (if action == Ambiguous && later then {EntityDisagrees} else {})
      + if incident.Some? && ProfileMatches(tool, incident.value) && later then {ProfileSurvived} else {}
  }

  ghost predicate BlockersFit(plan: MemberPlan, member: Member, e: Evidence, tool: Tool, incident: Option<Run>) {
    && plan.blockers == AllBlockers(plan.action, member, e, tool, incident)
    && plan.active == e.activeRequest
    && (plan.gold <==> exists a :: a in e.assignments && IsGold(a))
    && (plan.eligible <==> plan.blockers == {} && !Undecided(plan.action))
  }

  predicate IsGold(a: Assignment) { a.inPrimaryCategory && a.source == Manual && a.status == Verified && a.primary }

  ghost predicate Planned(plan: MemberPlan, member: Member, e: Evidence) {
    plan.tool == member.tool &&
    match e.tool
    case None => plan.action == Investigate && plan.effects == [] && plan.blockers == {ToolNotFound} && !plan.eligible
    case Some(tool) => plan.current == Some(tool.entity) && exists incident, survivor :: Decided(plan, member, e, tool, incident, survivor)
  }

  ghost predicate Decided(plan: MemberPlan, member: Member, e: Evidence, tool: Tool, incident: Option<Run>, survivor: Option<Run>) {
    var captured := incident.Some? && Captured(member, incident.value, e.runs);
    && PointerDecides(member, e.runs, incident)
    && plan.run == (if incident.Some? then IdOf(incident) else member.run)
    && ActionFits(plan.action, e, tool, incident, captured)
    && plan.survivor == IdOf(survivor) && SurvivorFits(plan.action, e, tool, incident, survivor)
    && EffectsFit(plan, e, tool, incident, survivor)
    && BlockersFit(plan, member, e, tool, incident)
  }

  method SomeGold(assignments: seq<Assignment>) returns (gold: bool)
    ensures gold <==> exists a :: a in assignments && IsGold(a)
  {
    for i := 0 to |assignments|
      invariant forall j :: 0 <= j < i ==> !IsGold(assignments[j])
    {
      if IsGold(assignments[i]) { return true; }
    }
    return false;
  }

  /** The action, the run it leans on, and the entity's disagreement with a later run. */
  method ChooseAction(e: Evidence, tool: Tool, incident: Option<Run>, captured: bool)
    returns (action: Action, survivor: Option<Run>, blockers: set<Blocker>, someLater: bool)
    requires captured ==> incident.Some?
    ensures someLater <==> incident.Some? && SomeLaterClean(e.runs, incident.value)
    ensures ActionFits(action, e, tool, incident, captured) && SurvivorFits(action, e, tool, incident, survivor)
    ensures blockers == if action == Ambiguous && someLater then {EntityDisagrees} else {}
    ensures action == Restore ==> survivor.Some? && survivor.value.kind.Some?
    ensures !captured ==> action != Restore && action != Reset
  {
    var later, prior: seq<Run> := [], [];
    if incident.Some? { later, prior := CleanRuns(e.runs, incident.value); }
    hide LaterClean, Restorable, Earlier;
    someLater := later != [];
    assert incident.Some? ==> (later != [] <==> SomeLaterClean(e.runs, incident.value)) by {
      assert later != [] ==> later[0] in later;
    }
    assert incident.Some? ==> (prior != [] <==> SomeRestorable(e.runs, incident.value)) by {
      assert prior != [] ==> prior[0] in prior;
    }
    survivor, blockers := None, {};
    if tool.entity.source == Manual || e.manualDecision {
      action := Protected;
    } else if incident.None? {
      action := Ambiguous;
    } else if later != [] {
      var run := Latest(later);
      survivor := Some(run);
      if tool.entity.source == Auto && run.kind == Some(tool.entity.kind) {
        action := Repaired;
      } else {
        action, blockers := Ambiguous, {EntityDisagrees};
      }
    } else if tool.entity != Entity(NonProduct, Auto) {
      action := AuditOnly;
    } else if !captured {
      action := Ambiguous;
    } else if prior != [] {
      var run := Latest(prior);
      survivor := Some(run);
      action := Restore;
      assert run.kind.Some? by { assert Restorable(run, incident.value); RestorableHasKind(run, incident.value); }
    } else {
      action := Reset;
    }
  }

  lemma RestorableHasKind(run: Run, incident: Run)
    requires Restorable(run, incident)
    ensures run.kind.Some?
  {
  }

  lemma IsPlanned(plan: MemberPlan, member: Member, e: Evidence, tool: Tool, incident: Option<Run>, survivor: Option<Run>)
    requires e.tool == Some(tool) && plan.tool == member.tool && plan.current == Some(tool.entity)
    requires PointerDecides(member, e.runs, incident) && plan.run == if incident.Some? then IdOf(incident) else member.run
    requires var captured := incident.Some? && Captured(member, incident.value, e.runs);
      ActionFits(plan.action, e, tool, incident, captured) && BlockersFit(plan, member, e, tool, incident)
    requires plan.survivor == IdOf(survivor) && SurvivorFits(plan.action, e, tool, incident, survivor)
    requires EffectsFit(plan, e, tool, incident, survivor)
    ensures Planned(plan, member, e)
  {
    hide ActionFits, SurvivorFits, EffectsFit, BlockersFit, Captured, PointerDecides;
    assert Decided(plan, member, e, tool, incident, survivor);
  }

  method PlanProfile(tool: Tool, incident: Option<Run>, someLater: bool) returns (effects: seq<Effect>, blockers: set<Blocker>)
    ensures var matches := incident.Some? && ProfileMatches(tool, incident.value);
      && effects == (if matches && !someLater then [ProfileEffect(tool.profile.value.stamp)] else [])
      && blockers == (if matches && someLater then {ProfileSurvived} else {})
  {
    effects, blockers := [], {};
    if incident.Some? && ProfileMatches(tool, incident.value) {
      if someLater { blockers := {ProfileSurvived}; } else { effects := [ProfileEffect(tool.profile.value.stamp)]; }
    }
  }

  method ReadIncident(member: Member, e: Evidence, cutoff: Option<Time>, prompt: Option<nat>)
    returns (incident: Option<Run>, captured: bool, effects: seq<Effect>, blockers: set<Blocker>)
    requires forall i, j :: 0 <= i < j < |e.runs| ==> e.runs[i].id != e.runs[j].id
    ensures captured <==> incident.Some? && Captured(member, incident.value, e.runs)
    ensures PointerDecides(member, e.runs, incident) && CandidateDecides(member, e.runs, cutoff, prompt, IdOf(incident))
    ensures effects == if incident.Some? then AssignmentEffects(e.assignments, incident.value.id) else []
    ensures blockers == RunBlockers(member, e.runs, incident)
      + (if incident.Some? && PointsToNonAuto(e.assignments, incident.value.id) then {NonAutoAssignment} else {})
      + (if e.activeRequest then {ActiveRequest} else {})
  {
    hide Candidate, Earlier, PointsToNonAuto, AssignmentEffects, RunBlockers, PointerDecides, CandidateDecides;
    var provenance;
    incident, provenance, blockers := FindIncidentRun(member, e.runs, cutoff, prompt);
    captured, effects := provenance == CapturedRun, [];
    if incident.Some? {
      var more;
      effects, more := PlanAssignments(e.assignments, incident.value.id);
      blockers := blockers + more;
    }
    if e.activeRequest { blockers := blockers + {ActiveRequest}; }
  }

  method PlanMember(member: Member, e: Evidence, cutoff: Option<Time>, prompt: Option<nat>) returns (plan: MemberPlan)
    requires forall i, j :: 0 <= i < j < |e.runs| ==> e.runs[i].id != e.runs[j].id
    ensures Planned(plan, member, e)
    ensures e.tool.Some? ==> CandidateDecides(member, e.runs, cutoff, prompt, plan.run)
  {
    if e.tool.None? {
      return MemberPlan(member.tool, member.run, None, Investigate, false, {ToolNotFound}, false, false, None, []);
    }
    hide ActionFits, SurvivorFits, Candidate, Earlier, LaterClean, ProfileMatches, IsGold, SomeLaterClean, PointsToNonAuto,
      AssignmentEffects, EntityEffects, Planned, RunBlockers, PointerDecides, CandidateDecides, Captured;
    var tool := e.tool.value;
    var incident, captured, effects, blockers := ReadIncident(member, e, cutoff, prompt);
    var action, survivor, disagreement, someLater := ChooseAction(e, tool, incident, captured);
    blockers := blockers + disagreement;
    effects := effects + EntityEffects(action, tool.entity, survivor);
    var profileEffects, profileBlockers := PlanProfile(tool, incident, someLater);
    effects, blockers := effects + profileEffects, blockers + profileBlockers;
    if Undecided(action) { effects := []; }
    var gold := SomeGold(e.assignments);
    plan := MemberPlan(member.tool, if incident.Some? then Some(incident.value.id) else member.run, Some(tool.entity), action,
                       blockers == {} && !Undecided(action), blockers, e.activeRequest, gold,
                       IdOf(survivor), effects);
    assert EffectsFit(plan, e, tool, incident, survivor);
    assert BlockersFit(plan, member, e, tool, incident);
    hide EffectsFit, BlockersFit, AllBlockers;
    IsPlanned(plan, member, e, tool, incident, survivor);
  }
}

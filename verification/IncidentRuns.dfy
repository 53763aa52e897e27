/** Runs of the rollback: freezing, batches that fail or commit, crashes, resumes, and everybody else at work. */
module IncidentRuns {
  import opened Prelude
  import opened IncidentPlan
  import opened IncidentReport
  import opened IncidentApply
  import opened IncidentSafety

  // ---------- a whole batch ----------

  lemma ToolsGrow(a: map<ToolId, Entity>, b: map<ToolId, Entity>, c: map<ToolId, Entity>, done: map<ToolId, MemberPlan>, plan: MemberPlan)
    requires ToolsPlanned(a, b, done) && EntityDone(b, c, plan, |plan.effects|) && plan.tool !in done
    ensures ToolsPlanned(a, c, done[plan.tool := plan])
  {
    if i :| 0 <= i < |plan.effects| && plan.effects[i].EntityEffect? {
      assert EntityEffect(b[plan.tool], c[plan.tool]) == plan.effects[i] && plan.effects[i] in plan.effects;
    }
  }

  lemma NoProfileDropped(a: map<ToolId, Profile>, b: map<ToolId, Profile>, done: map<ToolId, MemberPlan>, plan: MemberPlan)
    requires ProfilesPlanned(a, b, done) && plan.tool !in done && forall effect :: effect in plan.effects ==> !effect.ProfileEffect?
    ensures ProfilesPlanned(a, b, done[plan.tool := plan])
  {
  }

  lemma ProfileDropped(a: map<ToolId, Profile>, b: map<ToolId, Profile>, done: map<ToolId, MemberPlan>, plan: MemberPlan, stamp: Stamp)
    requires ProfilesPlanned(a, b, done) && plan.tool !in done && ProfileEffect(stamp) in plan.effects
    requires forall effect :: effect in plan.effects && effect.ProfileEffect? ==> HasProfile(b, plan.tool, effect.stamp)
    requires HasProfile(b, plan.tool, stamp) && b[plan.tool].neutral
    ensures ProfilesPlanned(a, b - {plan.tool}, done[plan.tool := plan])
  {
    assert a[plan.tool] == b[plan.tool];
  }

  lemma ProfilesGrow(a: map<ToolId, Profile>, b: map<ToolId, Profile>, c: map<ToolId, Profile>, done: map<ToolId, MemberPlan>, plan: MemberPlan)
    requires ProfilesPlanned(a, b, done) && ProfileDone(b, c, plan, |plan.effects|) && plan.tool !in done
    ensures ProfilesPlanned(a, c, done[plan.tool := plan])
  {
    hide ProfilesPlanned, HasProfile;
    if i :| 0 <= i < |plan.effects| && plan.effects[i].ProfileEffect? {
      ProfileDropped(a, b, done, plan, plan.effects[i].stamp);
    } else {
      NoProfileDropped(a, b, done, plan);
    }
  }

  lemma AssignmentsGrow(a: map<AssignmentId, Assignment>, b: map<AssignmentId, Assignment>, c: map<AssignmentId, Assignment>,
                        done: map<ToolId, MemberPlan>, plan: MemberPlan)
    requires AssignmentsPlanned(a, b, done) && AssignmentsDone(b, c, plan, |plan.effects|) && plan.tool !in done
    ensures AssignmentsPlanned(a, c, done[plan.tool := plan])
  {
    forall id | id in a ensures b[id].tool == a[id].tool {
      if b[id] != a[id] { SupersededInDone(a, b, done, id); }
    }
    forall id | id in a && c[id] != b[id]
      ensures a[id] == b[id] && HasAssignment(a, id, plan.tool, RunOf(plan), a[id].status)
        && AssignmentEffect(id, a[id].status) in plan.effects
    {
      ChangedByPlan(b, c, plan, id);
    }
    forall effect | effect in plan.effects && effect.AssignmentEffect?
      ensures HasAssignment(a, effect.id, plan.tool, RunOf(plan), effect.before) && c[effect.id] == SupersededRow(a[effect.id])
    {
      var i :| 0 <= i < |plan.effects| && plan.effects[i] == effect;
    }
  }

  lemma SupersededInDone(a: map<AssignmentId, Assignment>, b: map<AssignmentId, Assignment>, done: map<ToolId, MemberPlan>, id: AssignmentId)
    requires AssignmentsPlanned(a, b, done) && id in a && b[id] != a[id]
    ensures b[id] == SupersededRow(a[id]) && a[id].source == Auto && a[id].tool in done && a[id].run == Some(RunOf(done[a[id].tool]))
  {
    var t := a[id].tool;
    assert AssignmentEffect(id, a[id].status) in done[t].effects;
  }

  lemma ChangedByPlan(b: map<AssignmentId, Assignment>, c: map<AssignmentId, Assignment>, plan: MemberPlan, id: AssignmentId)
    requires AssignmentsDone(b, c, plan, |plan.effects|) && id in b && c[id] != b[id]
    ensures HasAssignment(b, id, plan.tool, RunOf(plan), b[id].status) && AssignmentEffect(id, b[id].status) in plan.effects
  {
    var i :| 0 <= i < |plan.effects| && SubjectOf(plan.effects[i]) == AssignmentState(id);
    assert plan.effects[i] in plan.effects;
  }

  /** The members of `done` were pending before and are settled after; no other member has moved. */
  predicate MembersSettle(before: map<ToolId, MemberRow>, after: map<ToolId, MemberRow>, done: map<ToolId, MemberPlan>) {
    && after.Keys == before.Keys
    && (forall t :: t in before && t !in done ==> after[t] == before[t])
    && (forall t :: t in done ==>
          && done[t].tool == t && t in before && before[t] == MemberRow(done[t], Pending)
          && after[t] == MemberRow(done[t], FinalStatus(done[t])))
  }

  /** Everything a batch of statements does to a database, when it commits. */
  ghost predicate BatchDone(db: Db, d: Db, done: map<ToolId, MemberPlan>) {
    && MembersSettle(db.members, d.members, done)
    && ToolsPlanned(db.tools, d.tools, done)
    && ProfilesPlanned(db.profiles, d.profiles, done)
    && AssignmentsPlanned(db.assignments, d.assignments, done)
    && d.incident == db.incident
  }

  ghost predicate LedgerInv(db: Db, plans: seq<MemberPlan>) {
    MembersFit(db.members, plans) && LedgerFits(db.members, db.audits, db.changes)
  }

  lemma MemberRows(db: Db, plan: MemberPlan, frozenAt: Time)
    requires ApplyMember(db, plan, frozenAt).Some? && OneEffectEach(plan.effects)
    ensures var d := ApplyMember(db, plan, frozenAt).value; var n := |plan.effects|;
      && EntityDone(db.tools, d.tools, plan, n) && ProfileDone(db.profiles, d.profiles, plan, n)
      && AssignmentsDone(db.assignments, d.assignments, plan, n)
  {
    hide ApplyMember, ApplyEffects, EntityDone, ProfileDone, AssignmentsDone, OneEffectEach, Noted, Newest;
    MemberApplies(db, plan, frozenAt);
    EffectsDoAsPlanned(RunNoted(db, plan), plan, |plan.effects|);
  }

  lemma NothingSettles(db: Db)
    ensures BatchDone(db, db, map[])
  {
  }

  lemma OneMoreSettles(db: Db, m: Db, done: map<ToolId, MemberPlan>, plan: MemberPlan, frozenAt: Time, plans: seq<MemberPlan>)
    requires Ready(plans) && LedgerInv(m, plans) && BatchDone(db, m, done) && ApplyMember(m, plan, frozenAt).Some?
    ensures var d := ApplyMember(m, plan, frozenAt).value; LedgerInv(d, plans) && BatchDone(db, d, done[plan.tool := plan])
  {
    hide Ready, LedgerFits, ApplyMember, ToolsPlanned, ProfilesPlanned, AssignmentsPlanned, EntityDone, ProfileDone, AssignmentsDone,
      OneEffectEach, SoundEffect, Newest;
    MemberApplies(m, plan, frozenAt);
    MemberIsSound(plans, plan);
    MemberKeepsLedger(m, plan, frozenAt, plans);
    MemberRows(m, plan, frozenAt);
    var d := ApplyMember(m, plan, frozenAt).value;
    assert plan.tool !in done by { assert m.members[plan.tool].status == Pending; }
    ToolsGrow(db.tools, m.tools, d.tools, done, plan);
    ProfilesGrow(db.profiles, m.profiles, d.profiles, done, plan);
    AssignmentsGrow(db.assignments, m.assignments, d.assignments, done, plan);
  }

  lemma {:induction false} BatchDoesAsPlanned(db: Db, batch: seq<MemberPlan>, frozenAt: Time, plans: seq<MemberPlan>)
    requires Ready(plans) && LedgerInv(db, plans) && ApplyMembers(db, batch, frozenAt).Some?
    ensures var d := ApplyMembers(db, batch, frozenAt).value; LedgerInv(d, plans) && BatchDone(db, d, DoneBy(batch))
  {
    if batch == [] {
      NothingSettles(db);
    } else {
      var front, last := batch[..|batch| - 1], batch[|batch| - 1];
      assert ApplyMembers(db, front, frozenAt).Some?;
      assert ApplyMembers(db, batch, frozenAt) == ApplyMember(ApplyMembers(db, front, frozenAt).value, last, frozenAt);
      assert DoneBy(batch) == DoneBy(front)[last.tool := last];
      BatchDoesAsPlanned(db, front, frozenAt, plans);
      OneMoreSettles(db, ApplyMembers(db, front, frozenAt).value, DoneBy(front), last, frozenAt, plans);
    }
    hide *;
  }

  // ---------- runs ----------

  /** `Elsewhere` is anything the rest of the system does to the rows it owns. A crash is a run that ends early. */
  datatype Step =
    | Elsewhere(tools: map<ToolId, Entity>, profiles: map<ToolId, Profile>, assignments: map<AssignmentId, Assignment>,
                runs: map<RunId, Run>, requests: set<ToolId>, decisions: set<ToolId>)
    | Freeze(plans: seq<MemberPlan>, now: Time)
    | FreezeMembers(plans: seq<MemberPlan>, from: nat, to: nat)
    | Begin(plans: seq<MemberPlan>)
    | Batch(plans: seq<MemberPlan>, batch: seq<MemberPlan>)
    | Close(plans: seq<MemberPlan>)

  /** INSERT ... ON CONFLICT DO NOTHING of members. */
  function WithMembers(members: map<ToolId, MemberRow>, plans: seq<MemberPlan>): map<ToolId, MemberRow> {
    if plans == [] then members
    else
      var before, plan := WithMembers(members, plans[..|plans| - 1]), plans[|plans| - 1];
      if plan.tool in before then before else before[plan.tool := MemberRow(plan, Pending)]
  }

  predicate IsOf(db: Db, plans: seq<MemberPlan>) { db.incident.Some? && db.incident.value.plans == plans }

  predicate AllFrozen(members: map<ToolId, MemberRow>, plans: seq<MemberPlan>) {
    forall i :: 0 <= i < |plans| ==> plans[i].tool in members && members[plans[i].tool].plan == plans[i]
  }

  predicate NonePending(members: map<ToolId, MemberRow>) { forall t :: t in members ==> members[t].status != Pending }

  function WithStatus(db: Db, status: IncidentStatus): Db
    requires db.incident.Some?
  {
    db.(incident := Some(db.incident.value.(status := status)))
  }

  function Next(db: Db, step: Step): Db {
    match step
    case Elsewhere(tools, profiles, assignments, runs, requests, decisions) =>
      db.(tools := tools, profiles := profiles, assignments := assignments, runs := runs, requests := requests, decisions := decisions)
    case Freeze(plans, now) =>
      if db.incident.None? && Ready(plans) then db.(incident := Some(Incident(plans, Frozen, now))) else db
    case FreezeMembers(plans, from, to) =>
      if IsOf(db, plans) && from <= to <= |plans| then db.(members := WithMembers(db.members, plans[from..to])) else db
    case Begin(plans) =>
      if IsOf(db, plans) && AllFrozen(db.members, plans) && db.incident.value.status != Closed then WithStatus(db, Applying) else db
    case Batch(plans, batch) =>
      if IsOf(db, plans) then
        match Execute(db, BatchStatements(plans, batch, db.incident.value.frozenAt)) case Some(next) => next case None => db
      else db
    case Close(plans) =>
      if IsOf(db, plans) && db.incident.value.status == Applying && NonePending(db.members) then WithStatus(db, Closed) else db
  }

  function After(db: Db, steps: seq<Step>): Db
    decreases |steps|
  {
    if steps == [] then db else After(Next(db, steps[0]), steps[1..])
  }

  ghost predicate Inv(db: Db) {
    match db.incident
    case None => db.members == map[] && db.audits == map[] && db.changes == []
    case Some(incident) =>
      && Ready(incident.plans) && LedgerInv(db, incident.plans)
      && (incident.status != Frozen ==> AllFrozen(db.members, incident.plans))
      && (incident.status == Closed ==> NonePending(db.members))
  }

  lemma {:induction false} WithMembersKeeps(members: map<ToolId, MemberRow>, plans: seq<MemberPlan>, all: seq<MemberPlan>)
    requires MembersFit(members, all) && forall i :: 0 <= i < |plans| ==> plans[i] in all
    ensures var more := WithMembers(members, plans);
      && MembersFit(more, all)
      && (forall t :: t in members ==> t in more && more[t] == members[t])
      && (forall t :: t in more && t !in members ==> more[t].status == Pending)
      && (forall t :: t in more && t !in members ==> exists i :: 0 <= i < |plans| && plans[i].tool == t)
  {
    if plans != [] { WithMembersKeeps(members, plans[..|plans| - 1], all); }
  }

  lemma MorePendingKeepsLedger(members: map<ToolId, MemberRow>, more: map<ToolId, MemberRow>, audits: map<AuditKey, Change>, changes: seq<AuditKey>)
    requires LedgerFits(members, audits, changes)
    requires forall t :: t in members ==> t in more && more[t] == members[t]
    requires forall t :: t in more && t !in members ==> more[t].status == Pending
    ensures LedgerFits(more, audits, changes)
  {
    hide Calls, ChangesAudited;
    forall key | key in audits ensures exists t: ToolId :: SettledAt(more, t) && Calls(more[t].plan, key, audits[key]) {
      var t: ToolId :| SettledAt(members, t) && Calls(members[t].plan, key, audits[key]);
      assert SettledAt(more, t);
    }
    forall t: ToolId, key, change | SettledAt(more, t) && Calls(more[t].plan, key, change)
      ensures key in audits && audits[key] == change
    {
      assert SettledAt(members, t);
    }
  }

  lemma {:induction false} FrozenAddsNothing(members: map<ToolId, MemberRow>, plans: seq<MemberPlan>)
    requires forall i :: 0 <= i < |plans| ==> plans[i].tool in members
    ensures WithMembers(members, plans) == members
  {
    if plans != [] { FrozenAddsNothing(members, plans[..|plans| - 1]); }
  }

  lemma FreezeMembersKeepsInv(db: Db, plans: seq<MemberPlan>, from: nat, to: nat)
    requires Inv(db)
    ensures Inv(Next(db, FreezeMembers(plans, from, to)))
  {
    if IsOf(db, plans) && from <= to <= |plans| {
      var more := WithMembers(db.members, plans[from..to]);
      hide Ready, LedgerFits, WithMembers;
      WithMembersKeeps(db.members, plans[from..to], plans);
      MorePendingKeepsLedger(db.members, more, db.audits, db.changes);
      if db.incident.value.status != Frozen { FrozenAddsNothing(db.members, plans[from..to]); }
    }
  }

  lemma BatchEither(db: Db, plans: seq<MemberPlan>, batch: seq<MemberPlan>)
    requires Inv(db)
    ensures var d := Next(db, Batch(plans, batch));
      d == db || (IsOf(db, plans) && db.incident.value.status == Applying && LedgerInv(d, plans) && BatchDone(db, d, DoneBy(batch)))
  {
    if IsOf(db, plans) {
      var frozenAt := db.incident.value.frozenAt;
      BatchApplies(db, plans, batch, frozenAt);
      hide Execute, BatchStatements, LedgerInv, BatchDone, Ready, ApplyMembers;
      if ApplyMembers(db, batch, frozenAt).Some? { BatchDoesAsPlanned(db, batch, frozenAt, plans); }
    }
  }

  lemma BatchKeepsInv(db: Db, plans: seq<MemberPlan>, batch: seq<MemberPlan>)
    requires Inv(db)
    ensures Inv(Next(db, Batch(plans, batch)))
  {
    BatchEither(db, plans, batch);
    hide Ready, LedgerInv, ToolsPlanned, ProfilesPlanned, AssignmentsPlanned, Next;
    var d := Next(db, Batch(plans, batch));
    if d != db {
      forall i | 0 <= i < |plans| ensures plans[i].tool in d.members && d.members[plans[i].tool].plan == plans[i] {
        assert plans[i].tool in db.members;
      }
    }
  }

  lemma StepKeepsInv(db: Db, step: Step)
    requires Inv(db)
    ensures Inv(Next(db, step))
  {
    hide Ready, LedgerFits, Execute, BatchStatements, WithMembers;
    match step
    case Elsewhere(_, _, _, _, _, _) =>
    case Freeze(plans, now) => EmptyLedger(plans);
    case FreezeMembers(plans, from, to) => FreezeMembersKeepsInv(db, plans, from, to);
    case Begin(plans) =>
    case Batch(plans, batch) => BatchKeepsInv(db, plans, batch);
    case Close(plans) =>
  }

  lemma EmptyLedger(plans: seq<MemberPlan>)
    ensures MembersFit(map[], plans) && LedgerFits(map[], map[], [])
  {
  }

  lemma {:induction false} RunKeepsInv(db: Db, steps: seq<Step>)
    requires Inv(db)
    ensures Inv(After(db, steps))
    decreases |steps|
  {
    if steps != [] {
      hide Inv, Next;
      StepKeepsInv(db, steps[0]);
      RunKeepsInv(Next(db, steps[0]), steps[1..]);
    }
  }

  // ---------- theorems ----------

  /**
   After any run: every audit row is called for by a settled member and says what its plan says;
   every effect of a settled member has its row; and current rows were changed exactly once per effect row.
   */
  lemma EveryEffectOnceWithItsAuditRow(db: Db, steps: seq<Step>)
    requires db.incident.None? && db.members == map[] && db.audits == map[] && db.changes == []
    ensures var d := After(db, steps);
      && AuditsCalled(d.members, d.audits) && CallsAnswered(d.members, d.audits) && ChangesAudited(d.audits, d.changes)
  {
    RunKeepsInv(db, steps);
    EmptyLedger([]);
  }

  /** A batch commits as a whole or not at all, and what it changes is planned, from the planned state, for members it settles. */
  lemma BatchesChangeOnlyWhatIsPlanned(db: Db, plans: seq<MemberPlan>, batch: seq<MemberPlan>)
    requires Inv(db)
    ensures var d := Next(db, Batch(plans, batch)); d == db || BatchDone(db, d, DoneBy(batch))
  {
    BatchEither(db, plans, batch);
  }

  /** An entity somebody has set by hand is not touched, whatever was planned when the incident was frozen. */
  lemma ManualEntitiesAreLeftAlone(db: Db, plans: seq<MemberPlan>, batch: seq<MemberPlan>, t: ToolId)
    requires Inv(db) && t in db.tools && db.tools[t].source == Manual
    ensures var d := Next(db, Batch(plans, batch)); t in d.tools && d.tools[t] == db.tools[t]
  {
    BatchEither(db, plans, batch);
    var d := Next(db, Batch(plans, batch));
    hide Next, DoneBy, ProfilesPlanned, AssignmentsPlanned, LedgerFits;
    if d != db && t in DoneBy(batch) {
      assert db.members[t].plan in plans;
      EntityEffectsAreAuto(plans, db.members[t].plan, db.tools[t], d.tools[t]);
    }
  }

  lemma EntityEffectsAreAuto(plans: seq<MemberPlan>, plan: MemberPlan, from: Entity, to: Entity)
    requires Ready(plans) && plan in plans
    ensures EntityEffect(from, to) in plan.effects ==> from.source == Auto
  {
    MemberIsSound(plans, plan);
    assert forall i :: 0 <= i < |plan.effects| ==> SoundEffect(plan, plan.effects[i]);
  }

  /** Assignments that a person or the legacy import made, and those another run made, are not touched. */
  lemma OnlyTheRunsOwnAssignmentsFall(db: Db, plans: seq<MemberPlan>, batch: seq<MemberPlan>, id: AssignmentId)
    requires Inv(db) && id in db.assignments
    ensures var d := Next(db, Batch(plans, batch)); var a := db.assignments[id];
      && id in d.assignments
      && (d.assignments[id] == a
          || (a.source == Auto && d.assignments[id] == SupersededRow(a) && SettledAt(d.members, a.tool)
              && a.run == Some(RunOf(d.members[a.tool].plan))))
  {
    BatchEither(db, plans, batch);
    var d := Next(db, Batch(plans, batch));
    if d != db {
      assert AssignmentsPlanned(db.assignments, d.assignments, DoneBy(batch));
      assert d.assignments.Keys == db.assignments.Keys;
      hide Next, DoneBy, ProfilesPlanned, ToolsPlanned, AssignmentsPlanned, LedgerFits, Ready, SupersededRow;
      if d.assignments[id] != db.assignments[id] { SupersededInDone(db.assignments, d.assignments, DoneBy(batch), id); }
    }
  }

  /** Once settled, a member stays settled, with the plan it was frozen with. */
  lemma {:induction false} SettledStays(db: Db, steps: seq<Step>, t: ToolId)
    requires Inv(db) && SettledAt(db.members, t)
    ensures var d := After(db, steps); SettledAt(d.members, t) && d.members[t] == db.members[t]
    decreases |steps|
  {
    if steps != [] {
      StepKeepsInv(db, steps[0]);
      SettledStaysAStep(db, steps[0], t);
      hide Inv, Next;
      SettledStays(Next(db, steps[0]), steps[1..], t);
    }
  }

  lemma SettledStaysAStep(db: Db, step: Step, t: ToolId)
    requires Inv(db) && SettledAt(db.members, t)
    ensures var d := Next(db, step); t in d.members && d.members[t] == db.members[t]
  {
    match step
    case Batch(plans, batch) =>
      BatchEither(db, plans, batch);
      hide Next, DoneBy, LedgerInv, ToolsPlanned, ProfilesPlanned, AssignmentsPlanned;
    case FreezeMembers(plans, from, to) =>
      if IsOf(db, plans) && from <= to <= |plans| {
        hide Ready, LedgerFits, WithMembers;
        WithMembersKeeps(db.members, plans[from..to], plans);
      }
    case _ =>
  }

  /** A closed incident has settled every member of its plan. */
  lemma ClosedMeansSettled(db: Db, steps: seq<Step>, i: nat)
    requires Inv(db)
    ensures var d := After(db, steps);
      d.incident.Some? && d.incident.value.status == Closed && i < |d.incident.value.plans| ==>
        var t := d.incident.value.plans[i].tool; SettledAt(d.members, t) && d.members[t].plan == d.incident.value.plans[i]
  {
    RunKeepsInv(db, steps);
  }

  // ---------- what does not hold: progress ----------

  predicate DecisionStays(steps: seq<Step>, t: ToolId) {
    forall i :: 0 <= i < |steps| && steps[i].Elsewhere? ==> t in steps[i].decisions
  }

  /**
   The guard on manual entity decisions also stops the members planned to be left alone because of one:
   such a member stays pending, so its incident is never closed.
   */
  lemma {:induction false} ManualDecisionNeverCloses(db: Db, steps: seq<Step>, t: ToolId)
    requires Inv(db) && t in db.members && db.members[t].status == Pending && t in db.decisions && DecisionStays(steps, t)
    ensures var d := After(db, steps); t in d.members && d.members[t].status == Pending && d.incident.Some? && d.incident.value.status != Closed
    decreases |steps|
  {
    if steps == [] {
    } else {
      StepKeepsInv(db, steps[0]);
      PendingAStep(db, steps[0], t);
      assert steps[0].Elsewhere? ==> t in steps[0].decisions;
      assert DecisionStays(steps[1..], t);
      hide Inv, Next;
      ManualDecisionNeverCloses(Next(db, steps[0]), steps[1..], t);
    }
  }

  lemma PendingAStep(db: Db, step: Step, t: ToolId)
    requires Inv(db) && t in db.members && db.members[t].status == Pending && t in db.decisions
    requires step.Elsewhere? ==> t in step.decisions
    ensures var d := Next(db, step); t in d.members && d.members[t].status == Pending && t in d.decisions
  {
    match step
    case Batch(plans, batch) =>
      if IsOf(db, plans) {
        BatchApplies(db, plans, batch, db.incident.value.frozenAt);
        if ApplyMembers(db, batch, db.incident.value.frozenAt).Some? {
          DecidedMembersFail(db, batch, db.incident.value.frozenAt, t);
        }
      }
      hide Execute, BatchStatements, ApplyMembers, LedgerInv;
    case FreezeMembers(plans, from, to) =>
      if IsOf(db, plans) && from <= to <= |plans| {
        hide Ready, LedgerFits, WithMembers;
        WithMembersKeeps(db.members, plans[from..to], plans);
      }
    case _ =>
  }

  lemma {:induction false} DecidedMembersFail(db: Db, batch: seq<MemberPlan>, frozenAt: Time, t: ToolId)
    requires t in db.members && db.members[t].status == Pending && t in db.decisions && ApplyMembers(db, batch, frozenAt).Some?
    ensures var d := ApplyMembers(db, batch, frozenAt).value;
      t in d.members && d.members[t].status == Pending && t in d.decisions
  {
    if batch != [] {
      var front, last := batch[..|batch| - 1], batch[|batch| - 1];
      DecidedMembersFail(db, front, frozenAt, t);
      var m := ApplyMembers(db, front, frozenAt).value;
      MemberApplies(m, last, frozenAt);
      EffectsKeepMembers(RunNoted(m, last), last, |last.effects|);
      hide ApplyMember, ApplyEffects, Newest;
    }
  }
}

/** What one committed batch of a rollback changes, and what it leaves in the audit. */
module IncidentSafety {
  import opened Prelude
  import opened IncidentPlan
  import opened IncidentReport
  import opened IncidentApply

  // ---------- audit rows and changes ----------

  /** The audit row a member's plan calls for. */
  predicate Calls(plan: MemberPlan, key: AuditKey, change: Change) {
    key.run == RunOf(plan) &&
    match change
    case RunInvalidated => key.subject == RunItself
    case Changed(effect) => effect in plan.effects && key.subject == SubjectOf(effect)
  }

  function EffectKeys(plan: MemberPlan, n: nat): seq<AuditKey>
    requires n <= |plan.effects|
  {
    seq(n, i requires 0 <= i < n => KeyOf(plan, plan.effects[i]))
  }

  /** `after` is `before` with the audit rows of the first `n` effects. */
  ghost predicate EffectsNoted(before: map<AuditKey, Change>, after: map<AuditKey, Change>, plan: MemberPlan, n: nat)
    requires n <= |plan.effects|
  {
    && (forall key :: key in after <==> key in before || key in EffectKeys(plan, n))
    && (forall key :: key in before && key in after ==> after[key] == before[key])
    && forall i :: 0 <= i < n && EffectKeys(plan, n)[i] in after ==> after[EffectKeys(plan, n)[i]] == Changed(plan.effects[i])
  }

  lemma OneMoreNoted(before: map<AuditKey, Change>, after: map<AuditKey, Change>, plan: MemberPlan, n: nat)
    requires n < |plan.effects| && OneEffectEach(plan.effects) && EffectsNoted(before, after, plan, n)
    requires forall i :: 0 <= i < |plan.effects| ==> KeyOf(plan, plan.effects[i]) !in before
    ensures EffectsNoted(before, Noted(after, KeyOf(plan, plan.effects[n]), Changed(plan.effects[n])), plan, n + 1)
    ensures EffectKeys(plan, n + 1) == EffectKeys(plan, n) + [KeyOf(plan, plan.effects[n])]
  {
    var key := KeyOf(plan, plan.effects[n]);
    assert EffectKeys(plan, n + 1) == EffectKeys(plan, n) + [key];
    assert forall i :: 0 <= i < n ==> SubjectOf(plan.effects[i]) != SubjectOf(plan.effects[n]);
    assert key !in EffectKeys(plan, n);
  }

  lemma LastEffect(db: Db, plan: MemberPlan, n: nat)
    requires 0 < n <= |plan.effects| && ApplyEffects(db, plan, n).Some?
    ensures ApplyEffects(db, plan, n - 1).Some?
    ensures ApplyEffects(db, plan, n) == ApplyEffect(ApplyEffects(db, plan, n - 1).value, plan, plan.effects[n - 1])
  {
    hide ApplyEffect;
  }

  lemma NotedAs(db: Db, plan: MemberPlan, effect: Effect)
    requires ApplyEffect(db, plan, effect).Some?
    ensures var d := ApplyEffect(db, plan, effect).value; var key := KeyOf(plan, effect);
      d.changes == db.changes + [key] && d.audits == Noted(db.audits, key, Changed(effect))
  {
  }

  lemma NothingNoted(db: Db, plan: MemberPlan)
    ensures ApplyEffects(db, plan, 0) == Some(db) && db.changes == db.changes + EffectKeys(plan, 0)
    ensures EffectsNoted(db.audits, db.audits, plan, 0)
  {
    assert EffectKeys(plan, 0) == [];
  }

  /** Effects leave one audit row and one change each. */
  lemma {:induction false} EffectsAreNoted(db: Db, plan: MemberPlan, n: nat)
    requires n <= |plan.effects| && OneEffectEach(plan.effects) && ApplyEffects(db, plan, n).Some?
    requires forall i :: 0 <= i < |plan.effects| ==> KeyOf(plan, plan.effects[i]) !in db.audits
    ensures var d := ApplyEffects(db, plan, n).value;
      d.changes == db.changes + EffectKeys(plan, n) && EffectsNoted(db.audits, d.audits, plan, n)
  {
    hide *;
    if n == 0 {
      NothingNoted(db, plan);
    } else {
      LastEffect(db, plan, n);
      EffectsAreNoted(db, plan, n - 1);
      var before := ApplyEffects(db, plan, n - 1).value;
      NotedAs(before, plan, plan.effects[n - 1]);
      OneMoreNoted(db.audits, before.audits, plan, n - 1);
    }
  }

  // ---------- the invariant of the ledger ----------

  ghost predicate MembersFit(members: map<ToolId, MemberRow>, plans: seq<MemberPlan>) {
    forall t :: t in members ==> members[t].plan in plans && members[t].plan.tool == t
  }

  predicate SettledAt(members: map<ToolId, MemberRow>, t: ToolId) { t in members && members[t].status != Pending }

  /** Every audit row is called for by a settled member. */
  ghost predicate AuditsCalled(members: map<ToolId, MemberRow>, audits: map<AuditKey, Change>) {
    forall key :: key in audits ==> exists t :: SettledAt(members, t) && Calls(members[t].plan, key, audits[key])
  }

  /** Every row a settled member calls for is there. */
  ghost predicate CallsAnswered(members: map<ToolId, MemberRow>, audits: map<AuditKey, Change>) {
    forall t, key, change :: SettledAt(members, t) && Calls(members[t].plan, key, change) ==> key in audits && audits[key] == change
  }

  /** Changes to current rows match the audit rows one to one. */
  ghost predicate ChangesAudited(audits: map<AuditKey, Change>, changes: seq<AuditKey>) {
    Apart(changes) && forall key :: key in changes <==> key in audits && key.subject != RunItself
  }

  ghost predicate LedgerFits(members: map<ToolId, MemberRow>, audits: map<AuditKey, Change>, changes: seq<AuditKey>) {
    AuditsCalled(members, audits) && CallsAnswered(members, audits) && ChangesAudited(audits, changes)
  }

  predicate Ready(plans: seq<MemberPlan>) { Valid(plans) && forall i :: 0 <= i < |plans| ==> Sound(plans[i]) }

  /** A report that is ready to be applied and passes validation has all that the application needs. */
  lemma ValidatedReportsAreReady(plans: seq<MemberPlan>, members: seq<Member>, evidence: seq<Evidence>)
    requires |plans| == |members| == |evidence| && Valid(plans)
    requires forall i :: 0 <= i < |plans| ==> Planned(plans[i], members[i], evidence[i]) && Clear(plans[i])
    requires forall k, i, j :: 0 <= k < |evidence| && 0 <= i < j < |evidence[k].assignments| ==>
      evidence[k].assignments[i].id != evidence[k].assignments[j].id
    ensures Ready(plans)
  {
    forall i | 0 <= i < |plans| ensures Sound(plans[i]) {
      ClearMembersAreSound(plans[i], members[i], evidence[i]);
    }
  }

  lemma SameRunSamePlan(plans: seq<MemberPlan>, a: MemberPlan, b: MemberPlan)
    requires Ready(plans) && a in plans && b in plans
    ensures RunOf(a) == RunOf(b) || a.tool == b.tool ==> a == b
  {
    var i :| 0 <= i < |plans| && plans[i] == a;
    var j :| 0 <= j < |plans| && plans[j] == b;
    assert Sound(plans[i]) && Sound(plans[j]);
  }

  /** A pending member has no audit row yet. */
  lemma PendingIsFresh(members: map<ToolId, MemberRow>, audits: map<AuditKey, Change>, plans: seq<MemberPlan>, plan: MemberPlan)
    requires Ready(plans) && MembersFit(members, plans) && AuditsCalled(members, audits)
    requires plan.tool in members && members[plan.tool] == MemberRow(plan, Pending)
    ensures forall key :: key in audits ==> key.run != RunOf(plan)
  {
    forall key | key in audits ensures key.run != RunOf(plan) {
      var t :| SettledAt(members, t) && Calls(members[t].plan, key, audits[key]);
      SameRunSamePlan(plans, members[t].plan, plan);
    }
  }

  /** The audit once a member is settled: its run's row, and its effects' rows, next to what was there. */
  ghost predicate MemberNoted(before: map<AuditKey, Change>, after: map<AuditKey, Change>, plan: MemberPlan) {
    && (forall key :: key in before ==> key in after && after[key] == before[key])
    && (forall key :: key in after && key !in before ==> Calls(plan, key, after[key]))
    && (forall key, change :: Calls(plan, key, change) ==> key in after && after[key] == change)
  }

  lemma MemberIsNoted(before: map<AuditKey, Change>, after: map<AuditKey, Change>, plan: MemberPlan)
    requires OneEffectEach(plan.effects) && forall key :: key in before ==> key.run != RunOf(plan)
    requires EffectsNoted(Noted(before, AuditKey(RunOf(plan), RunItself), RunInvalidated), after, plan, |plan.effects|)
    ensures MemberNoted(before, after, plan)
  {
    var keys := EffectKeys(plan, |plan.effects|);
    var runKey := AuditKey(RunOf(plan), RunItself);
    forall i | 0 <= i < |keys| ensures keys[i] in after && after[keys[i]] == Changed(plan.effects[i]) && plan.effects[i] in plan.effects {
      assert keys[i] in keys;
    }
    forall key, change | Calls(plan, key, change) ensures key in after && after[key] == change {
      if change.Changed? {
        var i :| 0 <= i < |plan.effects| && plan.effects[i] == change.effect;
        assert keys[i] == key;
      }
    }
    forall key | key in after && key !in before ensures Calls(plan, key, after[key]) {
      if key != runKey {
        var i :| 0 <= i < |keys| && keys[i] == key;
      }
    }
  }

  lemma SettlingKeepsAudits(members: map<ToolId, MemberRow>, before: map<AuditKey, Change>, after: map<AuditKey, Change>,
                            plan: MemberPlan, status: MemberStatus)
    requires plan.tool in members && members[plan.tool] == MemberRow(plan, Pending) && status != Pending
    requires AuditsCalled(members, before) && CallsAnswered(members, before) && MemberNoted(before, after, plan)
    ensures var settled := members[plan.tool := MemberRow(plan, status)]; AuditsCalled(settled, after) && CallsAnswered(settled, after)
  {
    hide Calls;
    var settled := members[plan.tool := MemberRow(plan, status)];
    forall key | key in after ensures exists t: ToolId :: SettledAt(settled, t) && Calls(settled[t].plan, key, after[key]) {
      if key in before {
        var t: ToolId :| SettledAt(members, t) && Calls(members[t].plan, key, before[key]);
        assert SettledAt(settled, t) && settled[t] == members[t];
      } else {
        assert SettledAt(settled, plan.tool) && Calls(settled[plan.tool].plan, key, after[key]);
      }
    }
    forall t: ToolId, key, change | SettledAt(settled, t) && Calls(settled[t].plan, key, change) ensures key in after && after[key] == change {
      if t != plan.tool { assert SettledAt(members, t); }
    }
  }

  lemma ChangesStayAudited(before: map<AuditKey, Change>, after: map<AuditKey, Change>, changes: seq<AuditKey>, plan: MemberPlan)
    requires OneEffectEach(plan.effects) && ChangesAudited(before, changes) && forall key :: key in before ==> key.run != RunOf(plan)
    requires EffectsNoted(Noted(before, AuditKey(RunOf(plan), RunItself), RunInvalidated), after, plan, |plan.effects|)
    ensures ChangesAudited(after, changes + EffectKeys(plan, |plan.effects|))
  {
    var keys := EffectKeys(plan, |plan.effects|);
    assert forall i :: 0 <= i < |keys| ==> keys[i].run == RunOf(plan) && keys[i].subject != RunItself;
    forall i, j | 0 <= i < j < |changes + keys| ensures (changes + keys)[i] != (changes + keys)[j] {
      if i < |changes| {
        assert changes[i] in changes;
      } else {
        assert SubjectOf(plan.effects[i - |changes|]) != SubjectOf(plan.effects[j - |changes|]);
      }
    }
  }

  lemma MemberKeepsLedger(db: Db, plan: MemberPlan, frozenAt: Time, plans: seq<MemberPlan>)
    requires Ready(plans) && MembersFit(db.members, plans) && LedgerFits(db.members, db.audits, db.changes)
    requires ApplyMember(db, plan, frozenAt).Some?
    ensures var d := ApplyMember(db, plan, frozenAt).value;
      && MembersFit(d.members, plans) && LedgerFits(d.members, d.audits, d.changes)
      && d.members == db.members[plan.tool := MemberRow(plan, FinalStatus(plan))] && d.incident == db.incident
  {
    hide Ready, AuditsCalled, CallsAnswered, ChangesAudited, EffectsNoted, EffectKeys, ApplyEffects, ApplyMember, OneEffectEach,
      SoundEffect, Newest, Calls;
    MemberApplies(db, plan, frozenAt);
    PendingIsFresh(db.members, db.audits, plans, plan);
    MemberIsSound(plans, plan);
    var start := RunNoted(db, plan);
    var d := ApplyMember(db, plan, frozenAt).value;
    EffectsKeepMembers(start, plan, |plan.effects|);
    EffectsAreNoted(start, plan, |plan.effects|);
    MemberIsNoted(db.audits, d.audits, plan);
    SettlingKeepsAudits(db.members, db.audits, d.audits, plan, FinalStatus(plan));
    ChangesStayAudited(db.audits, d.audits, db.changes, plan);
  }

  lemma MemberApplies(db: Db, plan: MemberPlan, frozenAt: Time)
    requires ApplyMember(db, plan, frozenAt).Some?
    ensures MayApply(db, plan, frozenAt) && ApplyEffects(RunNoted(db, plan), plan, |plan.effects|).Some?
    ensures ApplyMember(db, plan, frozenAt) == Some(Settled(ApplyEffects(RunNoted(db, plan), plan, |plan.effects|).value, plan))
  {
    hide MayApply, ApplyEffects;
  }

  lemma MemberIsSound(plans: seq<MemberPlan>, plan: MemberPlan)
    requires Ready(plans) && plan in plans
    ensures Sound(plan)
  {
    var i :| 0 <= i < |plans| && plans[i] == plan;
  }

  // ---------- the rows that change ----------

  /** The members a batch settles. */
  function DoneBy(batch: seq<MemberPlan>): map<ToolId, MemberPlan> {
    if batch == [] then map[] else DoneBy(batch[..|batch| - 1])[batch[|batch| - 1].tool := batch[|batch| - 1]]
  }

  ghost predicate ToolsPlanned(before: map<ToolId, Entity>, after: map<ToolId, Entity>, done: map<ToolId, MemberPlan>) {
    && after.Keys == before.Keys
    && (forall t :: t in before && after[t] != before[t] ==> t in done && EntityEffect(before[t], after[t]) in done[t].effects)
    && (forall t, effect :: t in done && effect in done[t].effects && effect.EntityEffect? ==>
          t in before && before[t] == effect.from && after[t] == effect.to)
  }

  ghost predicate ProfilesPlanned(before: map<ToolId, Profile>, after: map<ToolId, Profile>, done: map<ToolId, MemberPlan>) {
    && (forall t :: t in after ==> t in before && after[t] == before[t])
    && (forall t :: t in before && t !in after ==>
          t in done && before[t].neutral && ProfileEffect(before[t].stamp) in done[t].effects)
    && (forall t, effect :: t in done && effect in done[t].effects && effect.ProfileEffect? ==>
          t in before && before[t].stamp == effect.stamp && t !in after)
  }

  function SupersededRow(a: Assignment): Assignment { a.(status := Superseded, primary := false) }

  ghost predicate AssignmentsPlanned(before: map<AssignmentId, Assignment>, after: map<AssignmentId, Assignment>,
                                     done: map<ToolId, MemberPlan>) {
    && after.Keys == before.Keys
    && (forall id :: id in before && after[id] != before[id] ==>
          && before[id].source == Auto && before[id].tool in done && before[id].run == Some(RunOf(done[before[id].tool]))
          && AssignmentEffect(id, before[id].status) in done[before[id].tool].effects)
    && (forall t, effect :: t in done && effect in done[t].effects && effect.AssignmentEffect? ==>
          HasAssignment(before, effect.id, t, RunOf(done[t]), effect.before) && after[effect.id] == SupersededRow(before[effect.id]))
  }

  /** What the first `n` effects do to each table. */
  ghost predicate EntityDone(before: map<ToolId, Entity>, after: map<ToolId, Entity>, plan: MemberPlan, n: nat)
    requires n <= |plan.effects|
  {
    && ((forall i :: 0 <= i < n ==> !plan.effects[i].EntityEffect?) ==> after == before)
    && forall i :: 0 <= i < n && plan.effects[i].EntityEffect? ==>
         plan.tool in before && before[plan.tool] == plan.effects[i].from && after == before[plan.tool := plan.effects[i].to]
  }

  ghost predicate ProfileDone(before: map<ToolId, Profile>, after: map<ToolId, Profile>, plan: MemberPlan, n: nat)
    requires n <= |plan.effects|
  {
    && ((forall i :: 0 <= i < n ==> !plan.effects[i].ProfileEffect?) ==> after == before)
    && forall i :: 0 <= i < n && plan.effects[i].ProfileEffect? ==>
         HasProfile(before, plan.tool, plan.effects[i].stamp) && before[plan.tool].neutral && after == before - {plan.tool}
  }

  ghost predicate AssignmentsDone(before: map<AssignmentId, Assignment>, after: map<AssignmentId, Assignment>, plan: MemberPlan, n: nat)
    requires n <= |plan.effects|
  {
    && after.Keys == before.Keys
    && (forall id :: id in before && (forall i :: 0 <= i < n ==> SubjectOf(plan.effects[i]) != AssignmentState(id)) ==> after[id] == before[id])
    && forall i :: 0 <= i < n && plan.effects[i].AssignmentEffect? ==>
         && HasAssignment(before, plan.effects[i].id, plan.tool, RunOf(plan), plan.effects[i].before)
         && after[plan.effects[i].id] == SupersededRow(before[plan.effects[i].id])
  }

  lemma EntityStep(start: map<ToolId, Entity>, db: Db, plan: MemberPlan, n: nat)
    requires n < |plan.effects| && OneEffectEach(plan.effects) && EntityDone(start, db.tools, plan, n)
    requires ApplyEffect(db, plan, plan.effects[n]).Some?
    ensures EntityDone(start, ApplyEffect(db, plan, plan.effects[n]).value.tools, plan, n + 1)
  {
    assert forall i :: 0 <= i < n ==> SubjectOf(plan.effects[i]) != SubjectOf(plan.effects[n]);
    hide OneEffectEach, HasProfile, HasAssignment, Noted;
  }

  lemma ProfileStep(start: map<ToolId, Profile>, db: Db, plan: MemberPlan, n: nat)
    requires n < |plan.effects| && OneEffectEach(plan.effects) && ProfileDone(start, db.profiles, plan, n)
    requires ApplyEffect(db, plan, plan.effects[n]).Some?
    ensures ProfileDone(start, ApplyEffect(db, plan, plan.effects[n]).value.profiles, plan, n + 1)
  {
    assert forall i :: 0 <= i < n ==> SubjectOf(plan.effects[i]) != SubjectOf(plan.effects[n]);
    hide OneEffectEach, HasAssignment, Noted;
  }

  lemma OneMoreSuperseded(start: map<AssignmentId, Assignment>, rows: map<AssignmentId, Assignment>, plan: MemberPlan, n: nat)
    requires n < |plan.effects| && OneEffectEach(plan.effects) && AssignmentsDone(start, rows, plan, n)
    requires plan.effects[n].AssignmentEffect? && HasAssignment(rows, plan.effects[n].id, plan.tool, RunOf(plan), plan.effects[n].before)
    ensures var id := plan.effects[n].id; AssignmentsDone(start, rows[id := SupersededRow(rows[id])], plan, n + 1)
  {
    assert forall i :: 0 <= i < n ==> SubjectOf(plan.effects[i]) != SubjectOf(plan.effects[n]);
    hide OneEffectEach;
    var id := plan.effects[n].id;
    var after := rows[id := SupersededRow(rows[id])];
    assert rows[id] == start[id];
    hide HasAssignment, SupersededRow;
    forall x | x in start && (forall i :: 0 <= i < n + 1 ==> SubjectOf(plan.effects[i]) != AssignmentState(x)) ensures after[x] == start[x] {
      assert SubjectOf(plan.effects[n]) != AssignmentState(x);
    }
  }

  lemma NoneMoreSuperseded(start: map<AssignmentId, Assignment>, rows: map<AssignmentId, Assignment>, plan: MemberPlan, n: nat)
    requires n < |plan.effects| && AssignmentsDone(start, rows, plan, n) && !plan.effects[n].AssignmentEffect?
    ensures AssignmentsDone(start, rows, plan, n + 1)
  {
  }

  lemma AssignmentStep(start: map<AssignmentId, Assignment>, db: Db, plan: MemberPlan, n: nat)
    requires n < |plan.effects| && OneEffectEach(plan.effects) && AssignmentsDone(start, db.assignments, plan, n)
    requires ApplyEffect(db, plan, plan.effects[n]).Some?
    ensures AssignmentsDone(start, ApplyEffect(db, plan, plan.effects[n]).value.assignments, plan, n + 1)
  {
    hide OneEffectEach, HasProfile, HasAssignment, Noted, AssignmentsDone;
    if plan.effects[n].AssignmentEffect? {
      OneMoreSuperseded(start, db.assignments, plan, n);
    } else {
      NoneMoreSuperseded(start, db.assignments, plan, n);
    }
  }

  lemma NothingDone(db: Db, plan: MemberPlan)
    ensures ApplyEffects(db, plan, 0) == Some(db)
    ensures EntityDone(db.tools, db.tools, plan, 0) && ProfileDone(db.profiles, db.profiles, plan, 0)
    ensures AssignmentsDone(db.assignments, db.assignments, plan, 0)
  {
  }

  lemma {:induction false} EffectsDoAsPlanned(db: Db, plan: MemberPlan, n: nat)
    requires n <= |plan.effects| && OneEffectEach(plan.effects) && ApplyEffects(db, plan, n).Some?
    ensures var d := ApplyEffects(db, plan, n).value;
      && EntityDone(db.tools, d.tools, plan, n) && ProfileDone(db.profiles, d.profiles, plan, n)
      && AssignmentsDone(db.assignments, d.assignments, plan, n)
  {
    hide *;
    if n == 0 {
      NothingDone(db, plan);
    } else {
      LastEffect(db, plan, n);
      EffectsDoAsPlanned(db, plan, n - 1);
      var before := ApplyEffects(db, plan, n - 1).value;
      EntityStep(db.tools, before, plan, n - 1);
      ProfileStep(db.profiles, before, plan, n - 1);
      AssignmentStep(db.assignments, before, plan, n - 1);
    }
  }
}

/** When a batch of the rollback commits, and when the incident can be closed. */
module IncidentProgress {
  import opened IncidentPlan
  import opened IncidentReport
  import opened IncidentApply
  import opened IncidentSafety
  import opened IncidentRuns

  // ---------- guards of one member ----------

  predicate EffectsMay(db: Db, plan: MemberPlan, n: nat)
    requires n <= |plan.effects|
  {
    forall i :: 0 <= i < n ==> MayEffect(db, plan, plan.effects[i])
  }

  /** Every guard of the member's statements holds in the one state. */
  predicate Applicable(db: Db, plan: MemberPlan, frozenAt: Time) {
    MayApply(db, plan, frozenAt) && EffectsMay(db, plan, |plan.effects|)
  }

  /** An effect leaves the guards of effects on other rows as they were. */
  lemma OtherRow(db: Db, plan: MemberPlan, effect: Effect, other: Effect)
    requires MayEffect(db, plan, effect) && SubjectOf(effect) != SubjectOf(other)
    ensures MayEffect(ApplyEffect(db, plan, effect).value, plan, other) <==> MayEffect(db, plan, other)
  {
  }

  lemma OtherTool(db: Db, plan: MemberPlan, effect: Effect, other: MemberPlan, its: Effect)
    requires MayEffect(db, plan, effect) && plan.tool != other.tool
    ensures MayEffect(ApplyEffect(db, plan, effect).value, other, its) <==> MayEffect(db, other, its)
  {
  }

  lemma {:induction false} EffectsApply(db: Db, plan: MemberPlan, n: nat)
    requires n <= |plan.effects| && OneEffectEach(plan.effects)
    ensures ApplyEffects(db, plan, n).Some? <==> EffectsMay(db, plan, n)
    ensures ApplyEffects(db, plan, n).Some? ==> forall j :: n <= j < |plan.effects| ==>
      (MayEffect(ApplyEffects(db, plan, n).value, plan, plan.effects[j]) <==> MayEffect(db, plan, plan.effects[j]))
  {
    if n > 0 {
      EffectsApply(db, plan, n - 1);
      var before := ApplyEffects(db, plan, n - 1);
      hide MayEffect, SubjectOf;
      if before.Some? && MayEffect(before.value, plan, plan.effects[n - 1]) {
        forall j | n <= j < |plan.effects|
          ensures MayEffect(ApplyEffect(before.value, plan, plan.effects[n - 1]).value, plan, plan.effects[j])
             <==> MayEffect(before.value, plan, plan.effects[j])
        {
          OtherRow(before.value, plan, plan.effects[n - 1], plan.effects[j]);
        }
      }
    }
  }

  lemma {:induction false} EffectsSpareOthers(db: Db, plan: MemberPlan, n: nat, other: MemberPlan, its: Effect)
    requires n <= |plan.effects| && ApplyEffects(db, plan, n).Some? && plan.tool != other.tool
    ensures MayEffect(ApplyEffects(db, plan, n).value, other, its) <==> MayEffect(db, other, its)
  {
    if n > 0 {
      EffectsSpareOthers(db, plan, n - 1, other, its);
      OtherTool(ApplyEffects(db, plan, n - 1).value, plan, plan.effects[n - 1], other, its);
      hide MayEffect;
    }
  }

  lemma NotedGuards(db: Db, plan: MemberPlan, other: MemberPlan, its: Effect)
    ensures MayEffect(RunNoted(db, plan), other, its) <==> MayEffect(db, other, its)
  {
  }

  /** The guards are tested one by one, each after the changes before it: that comes to testing them all first. */
  lemma MemberAppliesExactly(db: Db, plan: MemberPlan, frozenAt: Time)
    requires OneEffectEach(plan.effects)
    ensures ApplyMember(db, plan, frozenAt).Some? <==> Applicable(db, plan, frozenAt)
  {
    EffectsApply(RunNoted(db, plan), plan, |plan.effects|);
    forall i | 0 <= i < |plan.effects| { NotedGuards(db, plan, plan, plan.effects[i]); }
    hide MayEffect, MayApply, ApplyEffects, OneEffectEach;
  }

  lemma {:induction false} EffectsKeepTools(db: Db, plan: MemberPlan, n: nat)
    requires n <= |plan.effects| && ApplyEffects(db, plan, n).Some?
    ensures ApplyEffects(db, plan, n).value.tools.Keys == db.tools.Keys
  {
    if n > 0 { EffectsKeepTools(db, plan, n - 1); }
  }

  lemma MemberSparesOthers(db: Db, plan: MemberPlan, frozenAt: Time, other: MemberPlan)
    requires ApplyMember(db, plan, frozenAt).Some? && plan.tool != other.tool
    ensures Applicable(ApplyMember(db, plan, frozenAt).value, other, frozenAt) <==> Applicable(db, other, frozenAt)
  {
    MemberApplies(db, plan, frozenAt);
    EffectsKeepMembers(RunNoted(db, plan), plan, |plan.effects|);
    EffectsKeepTools(RunNoted(db, plan), plan, |plan.effects|);
    var next := ApplyEffects(RunNoted(db, plan), plan, |plan.effects|).value;
    forall i | 0 <= i < |other.effects|
      ensures MayEffect(Settled(next, plan), other, other.effects[i]) <==> MayEffect(db, other, other.effects[i])
    {
      EffectsSpareOthers(RunNoted(db, plan), plan, |plan.effects|, other, other.effects[i]);
      NotedGuards(db, plan, other, other.effects[i]);
    }
    hide MayEffect, ApplyEffects, ApplyMember, Newest;
  }

  // ---------- guards of a batch ----------

  predicate DifferentTools(batch: seq<MemberPlan>) {
    forall i, j :: 0 <= i < j < |batch| ==> batch[i].tool != batch[j].tool
  }

  predicate AllApplicable(db: Db, batch: seq<MemberPlan>, frozenAt: Time) {
    forall i :: 0 <= i < |batch| ==> Applicable(db, batch[i], frozenAt)
  }

  lemma {:induction false} MembersSpareOthers(db: Db, batch: seq<MemberPlan>, frozenAt: Time, other: MemberPlan)
    requires ApplyMembers(db, batch, frozenAt).Some? && forall i :: 0 <= i < |batch| ==> batch[i].tool != other.tool
    ensures Applicable(ApplyMembers(db, batch, frozenAt).value, other, frozenAt) <==> Applicable(db, other, frozenAt)
  {
    hide Applicable, ApplyMember;
    if batch != [] {
      var front := batch[..|batch| - 1];
      MembersSpareOthers(db, front, frozenAt, other);
      MemberSparesOthers(ApplyMembers(db, front, frozenAt).value, batch[|batch| - 1], frozenAt, other);
    }
  }

  lemma {:induction false} MembersApplyExactly(db: Db, batch: seq<MemberPlan>, frozenAt: Time)
    requires DifferentTools(batch) && forall i :: 0 <= i < |batch| ==> OneEffectEach(batch[i].effects)
    ensures ApplyMembers(db, batch, frozenAt).Some? <==> AllApplicable(db, batch, frozenAt)
  {
    hide Applicable, ApplyMember, OneEffectEach;
    if batch != [] {
      var front, last := batch[..|batch| - 1], batch[|batch| - 1];
      MembersApplyExactly(db, front, frozenAt);
      var before := ApplyMembers(db, front, frozenAt);
      if before.Some? {
        MembersSpareOthers(db, front, frozenAt, last);
        MemberAppliesExactly(before.value, last, frozenAt);
      }
      assert forall i :: 0 <= i < |front| ==> front[i] == batch[i];
    }
  }

  lemma SubjectsDiffer(plans: seq<MemberPlan>, plan: MemberPlan)
    requires Ready(plans) && plan in plans
    ensures OneEffectEach(plan.effects)
  {
    MemberIsSound(plans, plan);
  }

  /**
   A batch of different members of a frozen plan commits exactly if the incident is being applied and
   every guard of every member holds before it.
   */
  lemma BatchCommitsExactly(db: Db, plans: seq<MemberPlan>, batch: seq<MemberPlan>)
    requires Inv(db) && IsOf(db, plans) && DifferentTools(batch) && forall p :: p in batch ==> p in plans
    ensures Execute(db, BatchStatements(plans, batch, db.incident.value.frozenAt)).Some? <==>
      db.incident.value.status == Applying && AllApplicable(db, batch, db.incident.value.frozenAt)
  {
    var frozenAt := db.incident.value.frozenAt;
    BatchApplies(db, plans, batch, frozenAt);
    forall i | 0 <= i < |batch| ensures OneEffectEach(batch[i].effects) {
      assert batch[i] in batch;
      SubjectsDiffer(plans, batch[i]);
    }
    hide Execute, BatchStatements, ApplyMembers, LedgerInv, Ready, AllApplicable, DifferentTools, OneEffectEach;
    MembersApplyExactly(db, batch, frozenAt);
  }

  /** A committed batch leaves the guards of every other member as they were. */
  lemma BatchSparesOthers(db: Db, plans: seq<MemberPlan>, batch: seq<MemberPlan>, other: MemberPlan)
    requires IsOf(db, plans) && Execute(db, BatchStatements(plans, batch, db.incident.value.frozenAt)).Some?
    requires forall i :: 0 <= i < |batch| ==> batch[i].tool != other.tool
    ensures var frozenAt := db.incident.value.frozenAt;
      Applicable(Next(db, Batch(plans, batch)), other, frozenAt) <==> Applicable(db, other, frozenAt)
  {
    BatchApplies(db, plans, batch, db.incident.value.frozenAt);
    hide Execute, BatchStatements, ApplyMembers, Applicable;
    MembersSpareOthers(db, batch, db.incident.value.frozenAt, other);
  }

  // ---------- a decided member keeps the incident open ----------

  lemma {:induction false} AllBecomePending(members: map<ToolId, MemberRow>, plans: seq<MemberPlan>)
    requires members == map[] && DifferentTools(plans)
    ensures forall i :: 0 <= i < |plans| ==>
      plans[i].tool in WithMembers(members, plans) && WithMembers(members, plans)[plans[i].tool] == MemberRow(plans[i], Pending)
    ensures forall t :: t in WithMembers(members, plans) ==> exists i :: 0 <= i < |plans| && plans[i].tool == t
  {
    if plans != [] {
      var front := plans[..|plans| - 1];
      AllBecomePending(members, front);
      assert forall i :: 0 <= i < |front| ==> front[i] == plans[i];
    }
  }

  lemma {:induction false} AfterJoins(db: Db, first: seq<Step>, second: seq<Step>)
    ensures After(db, first + second) == After(After(db, first), second)
    decreases |first|
  {
    hide Next;
    if first == [] {
      assert first + second == second;
    } else {
      assert (first + second)[1..] == first[1..] + second;
      AfterJoins(Next(db, first[0]), first[1..], second);
    }
  }

  /** Freezing a plan leaves all of its members pending. */
  lemma FrozenArePending(db: Db, plans: seq<MemberPlan>, now: Time)
    requires db.incident.None? && Inv(db) && Ready(plans)
    ensures var d := After(db, [Freeze(plans, now), FreezeMembers(plans, 0, |plans|)]);
      && Inv(d) && IsOf(d, plans) && d.decisions == db.decisions
      && forall i :: 0 <= i < |plans| ==> plans[i].tool in d.members && d.members[plans[i].tool] == MemberRow(plans[i], Pending)
  {
    var steps := [Freeze(plans, now), FreezeMembers(plans, 0, |plans|)];
    RunKeepsInv(db, steps);
    AllBecomePending(db.members, plans);
    assert plans[0..|plans|] == plans && steps[1..] == [steps[1]] && steps[1..][1..] == [];
    var one := Next(db, steps[0]);
    assert After(db, steps) == After(one, [steps[1]]) == After(Next(one, steps[1]), []) == Next(one, steps[1]);
    hide After, WithMembers, Inv, Ready;
  }

  /**
   A plan with a member that somebody has decided upon by hand, which validation admits, is never
   closed while the decision stands, whatever is tried and whatever happens elsewhere.
   */
  lemma DecidedMembersKeepItOpen(db: Db, plans: seq<MemberPlan>, now: Time, i: nat, steps: seq<Step>)
    requires db.incident.None? && Inv(db) && Ready(plans)
    requires i < |plans| && plans[i].tool in db.decisions && DecisionStays(steps, plans[i].tool)
    ensures var d := After(db, [Freeze(plans, now), FreezeMembers(plans, 0, |plans|)] + steps);
      d.incident.Some? && d.incident.value.status != Closed
  {
    var freezing := [Freeze(plans, now), FreezeMembers(plans, 0, |plans|)];
    FrozenArePending(db, plans, now);
    AfterJoins(db, freezing, steps);
    ManualDecisionNeverCloses(After(db, freezing), steps, plans[i].tool);
    hide After, Inv, Ready;
  }
}

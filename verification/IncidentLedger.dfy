/** apply_batches: the pending members of a frozen plan, batch by batch. */
module IncidentLedger {
  import opened IncidentPlan
  import opened IncidentApply
  import opened IncidentSafety
  import opened IncidentRuns
  import opened IncidentProgress

  predicate IsPending(members: map<ToolId, MemberRow>, plan: MemberPlan) {
    plan.tool in members && members[plan.tool].status == Pending
  }

  /** Steps that applying a plan is made of. */
  predicate OfPlan(steps: seq<Step>, plans: seq<MemberPlan>) {
    forall i :: 0 <= i < |steps| ==> match steps[i]
      case Begin(p) => p == plans
      case Batch(p, _) => p == plans
      case Close(p) => p == plans
      case _ => false
  }

  class RollbackLedger {
    var db: Db

    constructor (db: Db)
      ensures this.db == db
    {
      this.db := db;
    }

    method PendingMembers(plans: seq<MemberPlan>) returns (pending: seq<MemberPlan>)
      ensures forall p :: p in pending <==> p in plans && IsPending(db.members, p)
      ensures DifferentTools(plans) ==> DifferentTools(pending)
    {
      pending := [];
      for i := 0 to |plans|
        invariant forall p :: p in pending <==> p in plans[..i] && IsPending(db.members, p)
        invariant DifferentTools(plans) ==> DifferentTools(pending)
      {
        assert plans[..i + 1] == plans[..i] + [plans[i]];
        if IsPending(db.members, plans[i]) {
          forall j | 0 <= j < |pending| && DifferentTools(plans) ensures pending[j].tool != plans[i].tool {
            assert pending[j] in plans[..i];
          }
          pending := pending + [plans[i]];
        }
      }
      assert plans[..|plans|] == plans;
    }

    method BuildBatch(plans: seq<MemberPlan>, batch: seq<MemberPlan>, frozenAt: Time) returns (statements: seq<Statement>)
      ensures statements == BatchStatements(plans, batch, frozenAt)
    {
      statements := [IncidentIsApplying(plans)];
      assert AllMemberStatements(batch[..0], frozenAt) == [];
      hide MemberStatements, AllMemberStatements, Opening, AllEffectStatements;
      for i := 0 to |batch|
        invariant statements == [IncidentIsApplying(plans)] + AllMemberStatements(batch[..i], frozenAt)
      {
        OneMoreInBatch(batch, i, frozenAt);
        var more := BuildMemberStatements(batch[i], frozenAt);
        statements := statements + more;
      }
      assert batch[..|batch|] == batch;
    }

    /** One batch in one transaction; false where a guard fails and nothing is written. */
    method ApplyOne(plans: seq<MemberPlan>, batch: seq<MemberPlan>) returns (ok: bool)
      requires Inv(db) && IsOf(db, plans) && DifferentTools(batch) && forall p :: p in batch ==> p in plans
      modifies this
      ensures db == Next(old(db), Batch(plans, batch)) && Inv(db) && db.incident == old(db.incident)
      ensures ok <==> Execute(old(db), BatchStatements(plans, batch, old(db).incident.value.frozenAt)).Some?
      ensures ok <==> db.incident.value.status == Applying && AllApplicable(old(db), batch, db.incident.value.frozenAt)
      ensures !ok ==> db == old(db)
      ensures ok ==> BatchDone(old(db), db, DoneBy(batch))
    {
      hide Execute, BatchStatements, Inv, BatchDone, AllApplicable, DifferentTools;
      BatchCommitsExactly(db, plans, batch);
      var statements := BuildBatch(plans, batch, db.incident.value.frozenAt);
      BatchKeepsInv(db, plans, batch);
      BatchCommits(db, plans, batch);
      var result := Execute(db, statements);
      ok := result.Some?;
      if ok { db := result.value; }
    }

    /**
     Every committed batch is a step of the machine; the loop stops at the first that fails. Unless a
     limit cuts it short, no batch fails and the incident is closed exactly if the guards of every
     pending member hold at the start.
     */
    method ApplyBatches(plans: seq<MemberPlan>, batchSize: nat, maxBatches: nat)
      returns (ok: bool, completed: nat, ghost steps: seq<Step>)
      requires Inv(db) && IsOf(db, plans) && AllFrozen(db.members, plans) && 1 <= batchSize <= 50
      modifies this
      ensures db == After(old(db), steps) && OfPlan(steps, plans) && Inv(db)
      ensures maxBatches > 0 ==> completed <= maxBatches
      ensures ok && maxBatches == 0 ==> NonePending(db.members)
      ensures db.incident.Some? && (maxBatches == 0 ==> (ok <==> db.incident.value.status == Closed))
      ensures maxBatches == 0 ==> (ok <==> PendingApplicable(old(db), plans, db.incident.value.frozenAt))
    {
      hide Inv, After, Ready, AllFrozen, AllApplicable, PendingApplicable, DifferentTools, LeftIn, OfPlan;
      var pending := PendingMembers(plans);
      PendingAreListed(db, plans, pending);
      PendingPlansDiffer(db, plans, pending);
      BeginApplying(plans);
      StatusIsNoGuard(old(db), Applying, plans, pending);
      ok, completed, steps := ApplyPending(plans, pending, batchSize, maxBatches, old(db));
      if ok { steps := CloseIncident(plans, old(db), steps); }
    }

    method BeginApplying(plans: seq<MemberPlan>)
      requires Inv(db) && IsOf(db, plans) && AllFrozen(db.members, plans)
      modifies this
      ensures db == After(old(db), [Begin(plans)]) && Inv(db) && db.members == old(db).members
      ensures db == if old(db).incident.value.status == Closed then old(db) else WithStatus(old(db), Applying)
    {
      hide After, Ready, LedgerInv;
      AfterOne(db, Begin(plans));
      StepKeepsInv(db, Begin(plans));
      if db.incident.value.status != Closed { db := WithStatus(db, Applying); }
    }

    method CloseIncident(plans: seq<MemberPlan>, ghost start: Db, ghost done: seq<Step>) returns (ghost steps: seq<Step>)
      requires Inv(db) && IsOf(db, plans) && db.incident.value.status != Frozen && db == After(start, done) && OfPlan(done, plans)
      modifies this
      ensures db == After(start, steps) && OfPlan(steps, plans) && Inv(db) && db.members == old(db).members
      ensures IsOf(db, plans) && db.incident.value.frozenAt == old(db).incident.value.frozenAt
      ensures db.incident.value.status == Closed <==> NonePending(db.members)
    {
      hide After, Ready, AllFrozen, LedgerInv;
      AfterSnoc(start, done, Close(plans));
      StepKeepsInv(db, Close(plans));
      steps := done + [Close(plans)];
      if NonePending(db.members) && db.incident.value.status == Applying { db := WithStatus(db, Closed); }
    }

    method ApplyPending(plans: seq<MemberPlan>, pending: seq<MemberPlan>, batchSize: nat, maxBatches: nat, ghost start: Db)
      returns (ok: bool, completed: nat, ghost steps: seq<Step>)
      requires Inv(db) && IsOf(db, plans) && db.incident.value.status != Frozen && LeftIn(db.members, pending)
      requires DifferentTools(pending) && forall p :: p in pending ==> p in plans
      requires pending == [] || db.incident.value.status == Applying
      requires db == After(start, [Begin(plans)]) && 1 <= batchSize
      modifies this
      ensures db == After(start, steps) && OfPlan(steps, plans) && Inv(db) && db.incident == old(db.incident)
      ensures maxBatches > 0 ==> completed <= maxBatches
      ensures ok && maxBatches == 0 ==> NonePending(db.members)
      ensures !ok ==> pending != []
      ensures maxBatches == 0 ==> (ok <==> AllApplicable(old(db), pending, db.incident.value.frozenAt))
    {
      hide Inv, Applicable, AllApplicable, GuardsAgree, DifferentTools, BatchDone, Execute, BatchStatements, Ready, After, LeftIn, Next;
      GuardsStart(db, pending, db.incident.value.frozenAt);
      completed, steps := 0, [Begin(plans)];
      var offset := 0;
      assert pending[0..] == pending;
      while offset < |pending| && (maxBatches == 0 || completed < maxBatches)
        invariant 0 <= offset <= |pending|
        invariant db == After(start, steps) && OfPlan(steps, plans) && Inv(db) && db.incident == old(db.incident)
        invariant LeftIn(db.members, pending[offset..])
        invariant maxBatches > 0 ==> completed <= maxBatches
        invariant AllApplicable(old(db), pending[..offset], db.incident.value.frozenAt)
        invariant GuardsAgree(old(db), db, pending[offset..], db.incident.value.frozenAt)
        decreases |pending| - offset
      {
        var end := if offset + batchSize < |pending| then offset + batchSize else |pending|;
        var batch := pending[offset..end];
        ghost var before := db;
        AfterSnoc(start, steps, Batch(plans, batch));
        PartOfPending(pending, offset, end, plans);
        ok := ApplyOne(plans, batch);
        BatchOfPending(old(db), before, plans, pending, offset, end, ok);
        if !ok { return false, completed, steps; }
        steps := steps + [Batch(plans, batch)];
        assert pending[offset..][..end - offset] == batch && pending[offset..][end - offset..] == pending[end..];
        BatchLeaves(before, db, pending[offset..], end - offset);
        completed, offset := completed + 1, end;
      }
      assert offset == |pending| ==> pending[..offset] == pending && pending[offset..] == [];
      NothingLeft(db.members, pending[offset..]);
      return true, completed, steps;
    }
  }

  predicate GuardsAgree(a: Db, b: Db, list: seq<MemberPlan>, frozenAt: Time) {
    forall i :: 0 <= i < |list| ==> (Applicable(a, list[i], frozenAt) <==> Applicable(b, list[i], frozenAt))
  }

  lemma GuardsStart(db: Db, list: seq<MemberPlan>, frozenAt: Time)
    ensures AllApplicable(db, list[..0], frozenAt) && GuardsAgree(db, db, list, frozenAt)
  {
  }

  predicate PendingApplicable(db: Db, plans: seq<MemberPlan>, frozenAt: Time) {
    forall p :: p in plans && IsPending(db.members, p) ==> Applicable(db, p, frozenAt)
  }

  /** No member's guard looks at the incident's status. */
  lemma StatusIsNoGuard(db: Db, status: IncidentStatus, plans: seq<MemberPlan>, pending: seq<MemberPlan>)
    requires db.incident.Some? && forall p :: p in pending <==> p in plans && IsPending(db.members, p)
    ensures var frozenAt := db.incident.value.frozenAt;
      && (AllApplicable(db, pending, frozenAt) <==> PendingApplicable(db, plans, frozenAt))
      && (AllApplicable(WithStatus(db, status), pending, frozenAt) <==> AllApplicable(db, pending, frozenAt))
  {
    var frozenAt := db.incident.value.frozenAt;
    forall p ensures Applicable(WithStatus(db, status), p, frozenAt) <==> Applicable(db, p, frozenAt) {
      hide Newest, HasProfile, HasAssignment;
      assert forall i :: 0 <= i < |p.effects| ==>
        (MayEffect(WithStatus(db, status), p, p.effects[i]) <==> MayEffect(db, p, p.effects[i]));
    }
    hide Applicable, IsPending;
    assert forall i :: 0 <= i < |pending| ==> pending[i] in pending;
  }

  /** The pending members are different; a closed incident has none, and every other is about to be applied. */
  lemma PendingPlansDiffer(db: Db, plans: seq<MemberPlan>, pending: seq<MemberPlan>)
    requires Inv(db) && IsOf(db, plans) && forall p :: p in pending ==> p in plans && IsPending(db.members, p)
    ensures DifferentTools(plans) && (db.incident.value.status == Closed ==> pending == [])
  {
    hide LedgerInv;
    assert pending != [] ==> IsPending(db.members, pending[0]);
  }

  lemma PartOfPending(pending: seq<MemberPlan>, from: nat, to: nat, plans: seq<MemberPlan>)
    requires from <= to <= |pending| && DifferentTools(pending) && forall p :: p in pending ==> p in plans
    ensures DifferentTools(pending[from..to]) && forall p :: p in pending[from..to] ==> p in plans
  {
  }

  /** What a batch says of the guards that held at the start. */
  lemma BatchOfPending(start: Db, before: Db, plans: seq<MemberPlan>, pending: seq<MemberPlan>, from: nat, to: nat, ok: bool)
    requires from <= to <= |pending| && DifferentTools(pending) && IsOf(before, plans)
    requires var frozenAt := before.incident.value.frozenAt; var batch := pending[from..to];
      && (ok <==> Execute(before, BatchStatements(plans, batch, frozenAt)).Some?)
      && (ok <==> AllApplicable(before, batch, frozenAt))
      && AllApplicable(start, pending[..from], frozenAt) && GuardsAgree(start, before, pending[from..], frozenAt)
    ensures var frozenAt := before.incident.value.frozenAt;
      if ok then AllApplicable(start, pending[..to], frozenAt)
        && GuardsAgree(start, Next(before, Batch(plans, pending[from..to])), pending[to..], frozenAt)
      else !AllApplicable(start, pending, frozenAt)
  {
    hide Applicable, Execute, BatchStatements, Next;
    var frozenAt, batch := before.incident.value.frozenAt, pending[from..to];
    forall i | 0 <= i < |batch|
      ensures batch[i] == pending[from + i] && (Applicable(start, batch[i], frozenAt) <==> Applicable(before, batch[i], frozenAt))
    {
      assert pending[from..][i] == batch[i];
    }
    if ok {
      forall i | 0 <= i < to ensures Applicable(start, pending[..to][i], frozenAt) {
        assert if i < from then pending[..from][i] == pending[i] else batch[i - from] == pending[i];
      }
      forall i | 0 <= i < |pending[to..]|
        ensures Applicable(start, pending[to..][i], frozenAt) <==> Applicable(Next(before, Batch(plans, batch)), pending[to..][i], frozenAt)
      {
        assert pending[to..][i] == pending[from..][to - from + i];
        BatchSparesOthers(before, plans, batch, pending[to..][i]);
      }
    }
  }

  lemma NothingLeft(members: map<ToolId, MemberRow>, list: seq<MemberPlan>)
    requires LeftIn(members, list)
    ensures list == [] ==> NonePending(members)
  {
  }

  lemma OneMoreInBatch(batch: seq<MemberPlan>, i: nat, frozenAt: Time)
    requires i < |batch|
    ensures AllMemberStatements(batch[..i + 1], frozenAt) == AllMemberStatements(batch[..i], frozenAt) + MemberStatements(batch[i], frozenAt)
  {
    assert batch[..i + 1][..i] == batch[..i];
  }

  /** Whoever is still pending is in the list. */
  ghost predicate LeftIn(members: map<ToolId, MemberRow>, list: seq<MemberPlan>) {
    forall t :: t in members && members[t].status == Pending ==> exists i :: 0 <= i < |list| && list[i].tool == t
  }

  lemma {:induction false} AfterSnoc(db: Db, steps: seq<Step>, step: Step)
    ensures After(db, steps + [step]) == Next(After(db, steps), step)
    decreases |steps|
  {
    hide Next;
    if steps == [] {
      AfterOne(db, step);
    } else {
      assert (steps + [step])[1..] == steps[1..] + [step];
      AfterSnoc(Next(db, steps[0]), steps[1..], step);
    }
  }

  lemma AfterOne(db: Db, step: Step)
    ensures After(db, [step]) == Next(db, step)
  {
    hide Next;
    assert After(Next(db, step), []) == Next(db, step);
  }

  lemma BatchCommits(db: Db, plans: seq<MemberPlan>, batch: seq<MemberPlan>)
    requires Inv(db) && IsOf(db, plans)
    ensures var result := Execute(db, BatchStatements(plans, batch, db.incident.value.frozenAt));
      && Next(db, Batch(plans, batch)) == (if result.Some? then result.value else db)
      && (result.Some? ==> BatchDone(db, result.value, DoneBy(batch)) && result.value.incident == db.incident)
  {
    var frozenAt := db.incident.value.frozenAt;
    BatchApplies(db, plans, batch, frozenAt);
    if ApplyMembers(db, batch, frozenAt).Some? { BatchDoesAsPlanned(db, batch, frozenAt, plans); }
    hide Execute, BatchStatements, ApplyMembers, LedgerInv, ToolsPlanned, ProfilesPlanned, AssignmentsPlanned, MembersSettle, Ready;
  }

  lemma PendingAreListed(db: Db, plans: seq<MemberPlan>, pending: seq<MemberPlan>)
    requires Inv(db) && IsOf(db, plans) && forall p :: p in pending <==> p in plans && IsPending(db.members, p)
    ensures LeftIn(db.members, pending)
  {
    hide Ready, LedgerFits;
    forall t | t in db.members && db.members[t].status == Pending ensures exists i :: 0 <= i < |pending| && pending[i].tool == t {
      assert db.members[t].plan in pending;
    }
  }

  lemma {:induction false} DoneCovers(batch: seq<MemberPlan>)
    ensures forall i :: 0 <= i < |batch| ==> batch[i].tool in DoneBy(batch)
  {
    if batch != [] { DoneCovers(batch[..|batch| - 1]); }
  }

  lemma BatchLeaves(before: Db, d: Db, list: seq<MemberPlan>, n: nat)
    requires n <= |list| && BatchDone(before, d, DoneBy(list[..n])) && LeftIn(before.members, list)
    ensures LeftIn(d.members, list[n..])
  {
    DoneCovers(list[..n]);
    assert forall i :: 0 <= i < n ==> list[..n][i] == list[i];
    assert forall i :: 0 <= i < n ==> list[i].tool in DoneBy(list[..n]);
    hide DoneBy, ToolsPlanned, ProfilesPlanned, AssignmentsPlanned;
    forall t | t in d.members && d.members[t].status == Pending ensures exists i :: 0 <= i < |list[n..]| && list[n..][i].tool == t {
      var i :| 0 <= i < |list| && list[i].tool == t;
      assert list[n..][i - n] == list[i];
    }
  }
}

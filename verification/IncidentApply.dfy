/** Applying a frozen rollback plan in guarded, atomic batches. */
module IncidentApply {
  import opened Prelude
  import opened IncidentPlan
  import opened IncidentReport

  datatype IncidentStatus = Frozen | Applying | Closed

  /** The hashes of the plan and its items are taken to be one-to-one, so the plan itself stands for them. */
  datatype Incident = Incident(plans: seq<MemberPlan>, status: IncidentStatus, frozenAt: Time)

  datatype MemberStatus = Pending | Applied | AuditedOnly

  datatype MemberRow = MemberRow(plan: MemberPlan, status: MemberStatus)

  datatype AuditKey = AuditKey(run: RunId, subject: Subject)

  /** What an audit row says was done. */
  datatype Change = RunInvalidated | Changed(effect: Effect)

  /**
   `requests` and `decisions` are the tools with an active reprocess request and with a manual
   entity decision. `changes` lists every change made to a current row, in order; it is kept for the statements only.
   */
  datatype Db = Db(
    tools: map<ToolId, Entity>, profiles: map<ToolId, Profile>, assignments: map<AssignmentId, Assignment>,
    runs: map<RunId, Run>, requests: set<ToolId>, decisions: set<ToolId>,
    incident: Option<Incident>, members: map<ToolId, MemberRow>, audits: map<AuditKey, Change>, changes: seq<AuditKey>)

  // ---------- statements ----------

  datatype Statement =
    // guards: a batch in which one fails is rolled back
    | IncidentIsApplying(plans: seq<MemberPlan>)
    | MemberIsPending(plan: MemberPlan)
    | RunIsNewest(run: RunId, tool: ToolId, frozenAt: Time)
    | ToolIsFree(tool: ToolId)
    | EntityIs(tool: ToolId, entity: Entity)
    | ProfileIs(tool: ToolId, stamp: Stamp)
    | AssignmentIs(id: AssignmentId, tool: ToolId, run: RunId, status: Status)
    // audit rows, where there is none yet
    | AuditRun(run: RunId, tool: ToolId)
    | AuditEffect(run: RunId, effect: Effect)
    | AuditProfile(run: RunId, tool: ToolId, stamp: Stamp)
    // changes, where the row is still as planned
    | SetEntity(run: RunId, tool: ToolId, from: Entity, to: Entity)
    | DropProfile(run: RunId, tool: ToolId, stamp: Stamp)
    | Supersede(run: RunId, id: AssignmentId, tool: ToolId, status: Status)
    | Settle(tool: ToolId, outcome: MemberStatus)

  predicate Newest(runs: map<RunId, Run>, run: RunId, tool: ToolId, frozenAt: Time) {
    run in runs && runs[run].tool == tool && forall r :: r in runs && runs[r].tool == tool ==> runs[r].created <= frozenAt
  }

  predicate HasProfile(profiles: map<ToolId, Profile>, tool: ToolId, stamp: Stamp) {
    tool in profiles && profiles[tool].stamp == stamp
  }

  predicate HasAssignment(assignments: map<AssignmentId, Assignment>, id: AssignmentId, tool: ToolId, run: RunId, status: Status) {
    && id in assignments && assignments[id].tool == tool && assignments[id].run == Some(run)
    && assignments[id].source == Auto && assignments[id].status == status
  }

  function Noted(audits: map<AuditKey, Change>, key: AuditKey, change: Change): map<AuditKey, Change> {
    if key in audits then audits else audits[key := change]
  }

  /** A guard yields the database as it was, or nothing. */
  function Perform(db: Db, s: Statement): Option<Db> {
    match s
    case IncidentIsApplying(plans) =>
      if db.incident.Some? && db.incident.value.plans == plans && db.incident.value.status == Applying then Some(db) else None
    case MemberIsPending(plan) =>
      if plan.tool in db.members && db.members[plan.tool] == MemberRow(plan, Pending) then Some(db) else None
    case RunIsNewest(run, tool, frozenAt) => if Newest(db.runs, run, tool, frozenAt) then Some(db) else None
    case ToolIsFree(tool) =>
      if tool in db.tools && tool !in db.requests && tool !in db.decisions then Some(db) else None
    case EntityIs(tool, entity) => if tool in db.tools && db.tools[tool] == entity then Some(db) else None
    case ProfileIs(tool, stamp) =>
      if HasProfile(db.profiles, tool, stamp) && db.profiles[tool].neutral then Some(db) else None
    case AssignmentIs(id, tool, run, status) => if HasAssignment(db.assignments, id, tool, run, status) then Some(db) else None
    case AuditRun(run, tool) =>
      Some(if run in db.runs && db.runs[run].tool == tool
           then db.(audits := Noted(db.audits, AuditKey(run, RunItself), RunInvalidated)) else db)
    case AuditEffect(run, effect) => Some(db.(audits := Noted(db.audits, AuditKey(run, SubjectOf(effect)), Changed(effect))))
    case AuditProfile(run, tool, stamp) =>
      Some(if HasProfile(db.profiles, tool, stamp)
           then db.(audits := Noted(db.audits, AuditKey(run, ProfileState), Changed(ProfileEffect(stamp)))) else db)
    case SetEntity(run, tool, from, to) =>
      Some(if tool in db.tools && db.tools[tool] == from
           then db.(tools := db.tools[tool := to], changes := db.changes + [AuditKey(run, EntityState)]) else db)
    case DropProfile(run, tool, stamp) =>
      Some(if HasProfile(db.profiles, tool, stamp)
           then db.(profiles := db.profiles - {tool}, changes := db.changes + [AuditKey(run, ProfileState)]) else db)
    case Supersede(run, id, tool, status) =>
      Some(if HasAssignment(db.assignments, id, tool, run, status)
           then db.(assignments := db.assignments[id := db.assignments[id].(status := Superseded, primary := false)],
                    changes := db.changes + [AuditKey(run, AssignmentState(id))]) else db)
    case Settle(tool, status) =>
      Some(if tool in db.members && db.members[tool].status == Pending
           then db.(members := db.members[tool := db.members[tool].(status := status)]) else db)
  }

  /** One atomic batch: all of its statements, or none. */
  function Execute(db: Db, statements: seq<Statement>): Option<Db>
    decreases |statements|
  {
    if statements == [] then Some(db)
    else match Perform(db, statements[0])
      case None => None
      case Some(next) => Execute(next, statements[1..])
  }

  lemma {:induction false} ExecuteJoins(db: Db, first: seq<Statement>, second: seq<Statement>)
    ensures Execute(db, first + second)
         == match Execute(db, first) case None => None case Some(next) => Execute(next, second)
    decreases |first|
  {
    if first == [] {
      assert first + second == second;
    } else {
      assert (first + second)[1..] == first[1..] + second;
      hide Perform;
      var next := Perform(db, first[0]);
      if next.Some? { ExecuteJoins(next.value, first[1..], second); }
    }
  }

  // ---------- build_member_statements ----------

  function RunOf(plan: MemberPlan): RunId { if plan.run.Some? then plan.run.value else 0 }

  function EffectStatements(plan: MemberPlan, effect: Effect): seq<Statement> {
    var tool, run := plan.tool, RunOf(plan);
    match effect
    case EntityEffect(from, to) => [EntityIs(tool, from), AuditEffect(run, effect), SetEntity(run, tool, from, to)]
    case ProfileEffect(stamp) => [ProfileIs(tool, stamp), AuditProfile(run, tool, stamp), DropProfile(run, tool, stamp)]
    case AssignmentEffect(id, status) =>
      [AssignmentIs(id, tool, run, status), AuditEffect(run, effect), Supersede(run, id, tool, status)]
  }

  function AllEffectStatements(plan: MemberPlan, n: nat): seq<Statement>
    requires n <= |plan.effects|
  {
    if n == 0 then [] else AllEffectStatements(plan, n - 1) + EffectStatements(plan, plan.effects[n - 1])
  }

  function FinalStatus(plan: MemberPlan): MemberStatus {
    if (plan.action == Repaired || plan.action == Protected || plan.action == AuditOnly) && plan.effects == [] then AuditedOnly
    else Applied
  }

  function Opening(plan: MemberPlan, frozenAt: Time): seq<Statement> {
    [MemberIsPending(plan), RunIsNewest(RunOf(plan), plan.tool, frozenAt), ToolIsFree(plan.tool), AuditRun(RunOf(plan), plan.tool)]
  }

  function MemberStatements(plan: MemberPlan, frozenAt: Time): seq<Statement> {
    Opening(plan, frozenAt) + AllEffectStatements(plan, |plan.effects|) + [Settle(plan.tool, FinalStatus(plan))]
  }

  function AllMemberStatements(batch: seq<MemberPlan>, frozenAt: Time): seq<Statement> {
    if batch == [] then [] else AllMemberStatements(batch[..|batch| - 1], frozenAt) + MemberStatements(batch[|batch| - 1], frozenAt)
  }

  function BatchStatements(plans: seq<MemberPlan>, batch: seq<MemberPlan>, frozenAt: Time): seq<Statement> {
    [IncidentIsApplying(plans)] + AllMemberStatements(batch, frozenAt)
  }

  method BuildMemberStatements(plan: MemberPlan, frozenAt: Time) returns (statements: seq<Statement>)
    ensures statements == MemberStatements(plan, frozenAt)
  {
    var run := RunOf(plan);
    statements := [MemberIsPending(plan), RunIsNewest(run, plan.tool, frozenAt), ToolIsFree(plan.tool), AuditRun(run, plan.tool)];
    for i := 0 to |plan.effects|
      invariant statements == Opening(plan, frozenAt) + AllEffectStatements(plan, i)
    {
      var effect := plan.effects[i];
      match effect
      case EntityEffect(from, to) =>
        statements := statements + [EntityIs(plan.tool, from), AuditEffect(run, effect), SetEntity(run, plan.tool, from, to)];
      case ProfileEffect(stamp) =>
        statements := statements + [ProfileIs(plan.tool, stamp), AuditProfile(run, plan.tool, stamp), DropProfile(run, plan.tool, stamp)];
      case AssignmentEffect(id, status) =>
        statements := statements
          + [AssignmentIs(id, plan.tool, run, status), AuditEffect(run, effect), Supersede(run, id, plan.tool, status)];
    }
    statements := statements + [Settle(plan.tool, FinalStatus(plan))];
  }

  // ---------- what the statements come to ----------

  predicate MayEffect(db: Db, plan: MemberPlan, effect: Effect) {
    match effect
    case EntityEffect(from, to) => plan.tool in db.tools && db.tools[plan.tool] == from
    case ProfileEffect(stamp) => HasProfile(db.profiles, plan.tool, stamp) && db.profiles[plan.tool].neutral
    case AssignmentEffect(id, status) => HasAssignment(db.assignments, id, plan.tool, RunOf(plan), status)
  }

  function KeyOf(plan: MemberPlan, effect: Effect): AuditKey { AuditKey(RunOf(plan), SubjectOf(effect)) }

  /** An effect makes its change and its audit row together. */
  function ApplyEffect(db: Db, plan: MemberPlan, effect: Effect): Option<Db> {
    if !MayEffect(db, plan, effect) then None
    else
      var key := KeyOf(plan, effect);
      var noted := db.(audits := Noted(db.audits, key, Changed(effect)), changes := db.changes + [key]);
      match effect
      case EntityEffect(from, to) => Some(noted.(tools := db.tools[plan.tool := to]))
      case ProfileEffect(stamp) => Some(noted.(profiles := db.profiles - {plan.tool}))
      case AssignmentEffect(id, status) =>
        Some(noted.(assignments := db.assignments[id := db.assignments[id].(status := Superseded, primary := false)]))
  }

  function ApplyEffects(db: Db, plan: MemberPlan, n: nat): Option<Db>
    requires n <= |plan.effects|
  {
    if n == 0 then Some(db)
    else match ApplyEffects(db, plan, n - 1)
      case None => None
      case Some(next) => ApplyEffect(next, plan, plan.effects[n - 1])
  }

  predicate MayApply(db: Db, plan: MemberPlan, frozenAt: Time) {
    && plan.tool in db.members && db.members[plan.tool] == MemberRow(plan, Pending)
    && Newest(db.runs, RunOf(plan), plan.tool, frozenAt)
    && plan.tool in db.tools && plan.tool !in db.requests && plan.tool !in db.decisions
  }

  function RunNoted(db: Db, plan: MemberPlan): Db {
    db.(audits := Noted(db.audits, AuditKey(RunOf(plan), RunItself), RunInvalidated))
  }

  function Settled(db: Db, plan: MemberPlan): Db { db.(members := db.members[plan.tool := MemberRow(plan, FinalStatus(plan))]) }

  function ApplyMember(db: Db, plan: MemberPlan, frozenAt: Time): Option<Db> {
    if !MayApply(db, plan, frozenAt) then None
    else match ApplyEffects(RunNoted(db, plan), plan, |plan.effects|)
      case None => None
      case Some(next) => Some(Settled(next, plan))
  }

  function ApplyMembers(db: Db, batch: seq<MemberPlan>, frozenAt: Time): Option<Db> {
    if batch == [] then Some(db)
    else match ApplyMembers(db, batch[..|batch| - 1], frozenAt)
      case None => None
      case Some(next) => ApplyMember(next, batch[|batch| - 1], frozenAt)
  }

  lemma ThreeStatements(db: Db, a: Statement, b: Statement, c: Statement)
    ensures Execute(db, [a, b, c]) == match Perform(db, a) case None => None case Some(d) =>
      match Perform(d, b) case None => None case Some(f) => Perform(f, c)
  {
    hide Perform;
    assert [a, b, c][1..] == [b, c] && [b, c][1..] == [c] && [c][1..] == [];
    if Perform(db, a).Some? {
      var d := Perform(db, a).value;
      assert Execute(db, [a, b, c]) == Execute(d, [b, c]);
      if Perform(d, b).Some? {
        var f := Perform(d, b).value;
        assert Execute(d, [b, c]) == Execute(f, [c]);
        if Perform(f, c).Some? { assert Execute(Perform(f, c).value, []) == Perform(f, c); }
      }
    }
  }

  lemma EffectStatementsApply(db: Db, plan: MemberPlan, effect: Effect)
    ensures Execute(db, EffectStatements(plan, effect)) == ApplyEffect(db, plan, effect)
  {
    var s := EffectStatements(plan, effect);
    assert s == [s[0], s[1], s[2]];
    ThreeStatements(db, s[0], s[1], s[2]);
    hide Execute;
  }

  lemma {:induction false} AllEffectStatementsApply(db: Db, plan: MemberPlan, n: nat)
    requires n <= |plan.effects|
    ensures Execute(db, AllEffectStatements(plan, n)) == ApplyEffects(db, plan, n)
  {
    if n > 0 {
      AllEffectStatementsApply(db, plan, n - 1);
      ExecuteJoins(db, AllEffectStatements(plan, n - 1), EffectStatements(plan, plan.effects[n - 1]));
      var before := ApplyEffects(db, plan, n - 1);
      if before.Some? { EffectStatementsApply(before.value, plan, plan.effects[n - 1]); }
      hide Execute, EffectStatements, ApplyEffect;
    }
  }

  lemma OpeningApplies(db: Db, plan: MemberPlan, frozenAt: Time)
    ensures Execute(db, Opening(plan, frozenAt)) == if MayApply(db, plan, frozenAt) then Some(RunNoted(db, plan)) else None
  {
    var o := Opening(plan, frozenAt);
    assert o == [o[0], o[1], o[2]] + [o[3]];
    ExecuteJoins(db, [o[0], o[1], o[2]], [o[3]]);
    ThreeStatements(db, o[0], o[1], o[2]);
    OneStatement(db, o[3]);
    hide Execute, Newest;
  }

  lemma OneStatement(db: Db, s: Statement)
    ensures Execute(db, [s]) == Perform(db, s)
  {
    hide Perform;
    if Perform(db, s).Some? { assert Execute(Perform(db, s).value, []) == Perform(db, s); }
  }

  /** The statement list of a member does what ApplyMember says. */
  lemma MemberStatementsApply(db: Db, plan: MemberPlan, frozenAt: Time)
    ensures Execute(db, MemberStatements(plan, frozenAt)) == ApplyMember(db, plan, frozenAt)
  {
    var opening, effects, settle := Opening(plan, frozenAt), AllEffectStatements(plan, |plan.effects|), Settle(plan.tool, FinalStatus(plan));
    ExecuteJoins(db, opening + effects, [settle]);
    ExecuteJoins(db, opening, effects);
    OpeningApplies(db, plan, frozenAt);
    if MayApply(db, plan, frozenAt) {
      AllEffectStatementsApply(RunNoted(db, plan), plan, |plan.effects|);
      var done := ApplyEffects(RunNoted(db, plan), plan, |plan.effects|);
      if done.Some? {
        OneStatement(done.value, settle);
        EffectsKeepMembers(RunNoted(db, plan), plan, |plan.effects|);
      }
    }
    hide Execute, Opening, AllEffectStatements, ApplyEffects, Newest;
  }

  lemma {:induction false} EffectsKeepMembers(db: Db, plan: MemberPlan, n: nat)
    requires n <= |plan.effects| && ApplyEffects(db, plan, n).Some?
    ensures var d := ApplyEffects(db, plan, n).value;
      && d.members == db.members && d.incident == db.incident && d.runs == db.runs
      && d.requests == db.requests && d.decisions == db.decisions
  {
    if n > 0 { EffectsKeepMembers(db, plan, n - 1); }
  }

  lemma {:induction false} BatchStatementsApply(db: Db, batch: seq<MemberPlan>, frozenAt: Time)
    ensures Execute(db, AllMemberStatements(batch, frozenAt)) == ApplyMembers(db, batch, frozenAt)
  {
    if batch != [] {
      var front, last := batch[..|batch| - 1], batch[|batch| - 1];
      BatchStatementsApply(db, front, frozenAt);
      ExecuteJoins(db, AllMemberStatements(front, frozenAt), MemberStatements(last, frozenAt));
      var before := ApplyMembers(db, front, frozenAt);
      if before.Some? { MemberStatementsApply(before.value, last, frozenAt); }
      hide Execute, MemberStatements, ApplyMember;
    }
  }

  /** A batch that commits has done its members' work in order; in any other case nothing has happened. */
  lemma BatchApplies(db: Db, plans: seq<MemberPlan>, batch: seq<MemberPlan>, frozenAt: Time)
    ensures Execute(db, BatchStatements(plans, batch, frozenAt)) ==
      if db.incident.Some? && db.incident.value.plans == plans && db.incident.value.status == Applying
      then ApplyMembers(db, batch, frozenAt) else None
  {
    ExecuteJoins(db, [IncidentIsApplying(plans)], AllMemberStatements(batch, frozenAt));
    OneStatement(db, IncidentIsApplying(plans));
    BatchStatementsApply(db, batch, frozenAt);
    hide Execute, AllMemberStatements, ApplyMembers;
  }
}

/** What a plan does to each row of its tool, told in terms of the rows it was read from. */
module IncidentEffects {
  import opened Prelude
  import opened IncidentPlan
  import opened IncidentReport
  import opened IncidentApply
  import opened IncidentSafety
  import opened IncidentRuns

  // ---------- the effects of a plan ----------

  /** A clean run: a known kind, not neutral, not blocked. */
  predicate Counts(run: Run) { run.kind.Some? && !run.neutral && !run.blocked }

  predicate Precedes(a: Run, b: Run) { a.created < b.created || (a.created == b.created && a.id < b.id) }

  /** No clean run came after the incident's. */
  ghost predicate LastWord(e: Evidence, incident: Run) { forall r :: r in e.runs && Precedes(incident, r) ==> !Counts(r) }

  /** The tool is still polluted, nobody has decided upon it, and the incident's run was captured. */
  ghost predicate Pollutes(member: Member, e: Evidence, incident: Run) {
    && e.tool.Some? && e.tool.value.entity == Entity(NonProduct, Auto) && !e.manualDecision
    && incident in e.runs && member.run == Some(incident.id) && incident.tool == member.tool && LastWord(e, incident)
  }

  /** An earlier clean, accepted run with a kind to go back to. */
  predicate GoesBack(run: Run, incident: Run) {
    Precedes(run, incident) && Counts(run) && run.accepted && run.kind != Some(Unresolved)
  }

  ghost predicate GoesBackLast(run: Run, e: Evidence, incident: Run) {
    run in e.runs && GoesBack(run, incident) && forall r :: r in e.runs && GoesBack(r, incident) ==> !Precedes(run, r)
  }

  /** What an entity effect leads to: the kind of the last run to go back to, or unresolved if there is none. */
  ghost predicate Mends(effect: Effect, member: Member, e: Evidence, incident: Run) {
    && effect.EntityEffect? && effect.from == Entity(NonProduct, Auto)
    && if exists run :: run in e.runs && GoesBack(run, incident)
       then exists run :: GoesBackLast(run, e, incident) && run.kind.Some? && effect.to == Entity(run.kind.value, Auto)
       else effect.to == Entity(Unresolved, Auto)
  }

  /** The only entity effect of a plan. */
  predicate OnlyEntityEffect(effects: seq<Effect>, effect: Effect) {
    effect in effects && effect.EntityEffect? && forall other :: other in effects && other.EntityEffect? ==> other == effect
  }

  predicate NoEntityEffect(effects: seq<Effect>) { forall effect :: effect in effects ==> !effect.EntityEffect? }

  lemma SameWords(run: Run, incident: Run)
    ensures Counts(run) == Clean(run) && Precedes(run, incident) == Earlier(run, incident) && GoesBack(run, incident) == Restorable(run, incident)
  {
  }

  /** The entity part of a plan, cut out of its effects. */
  lemma EntityPart(plan: MemberPlan, e: Evidence, tool: Tool, incident: Option<Run>, survivor: Option<Run>)
    requires EffectsFit(plan, e, tool, incident, survivor)
    ensures forall x :: x in plan.effects && x.EntityEffect? <==>
      !Undecided(plan.action) && incident.Some? && x in EntityEffects(plan.action, tool.entity, survivor)
  {
    if !Undecided(plan.action) && incident.Some? {
      var one, two := AssignmentEffects(e.assignments, incident.value.id), EntityEffects(plan.action, tool.entity, survivor);
      var three := plan.effects[|one| + |two|..];
      AssignmentEffectsAre(e.assignments, incident.value.id);
      assert plan.effects == one + two + three;
      hide EntityEffects, AssignmentEffects, EffectsFit;
      forall x | x in one ensures x.AssignmentEffect? { assert Supersedes(e.assignments, incident.value.id, x); }
      assert forall x :: x in plan.effects <==> x in one || x in two || x in three;
      assert forall x :: x in two ==> x.EntityEffect? by { EntityPartIs(plan.action, tool.entity, survivor); }
    }
  }

  lemma EntityPartIs(action: Action, current: Entity, survivor: Option<Run>)
    ensures forall x :: x in EntityEffects(action, current, survivor) ==> x.EntityEffect?
    ensures action != Restore && action != Reset ==> EntityEffects(action, current, survivor) == []
  {
  }

  predicate IdsDiffer(e: Evidence) { forall i, j :: 0 <= i < j < |e.runs| ==> e.runs[i].id != e.runs[j].id }

  /** Nothing pollutes the entity: the action is neither a restoration nor a reset. */
  lemma ActsOnPollution(plan: MemberPlan, member: Member, e: Evidence, tool: Tool, incident: Option<Run>, survivor: Option<Run>)
    requires e.tool == Some(tool) && IdsDiffer(e) && Decided(plan, member, e, tool, incident, survivor)
    ensures plan.action == Restore || plan.action == Reset <==> incident.Some? && Pollutes(member, e, incident.value)
    ensures forall run :: Pollutes(member, e, run) ==> incident == Some(run)
    ensures incident.Some? ==> (SomeRestorable(e.runs, incident.value) <==> exists run :: run in e.runs && GoesBack(run, incident.value))
  {
    forall run: Run, other: Run
      ensures Counts(run) == Clean(run) && Precedes(run, other) == Earlier(run, other) && GoesBack(run, other) == Restorable(run, other)
    {
      SameWords(run, other);
    }
    assert incident.Some? ==> (LastWord(e, incident.value) <==> !SomeLaterClean(e.runs, incident.value));
    hide Counts, Clean, Precedes, Earlier, GoesBack, Restorable, SurvivorFits, EffectsFit, BlockersFit, LastWord, SomeLaterClean;
    forall run | Pollutes(member, e, run) ensures incident == Some(run) {
      assert Captured(member, run, e.runs);
    }
  }

  /**
   A plan changes the entity exactly if a captured run still pollutes it undecided, and then in one way:
   back to the kind of the last earlier run worth it, or to unresolved if there is none.
   */
  lemma EntityIsMended(plan: MemberPlan, member: Member, e: Evidence)
    requires Planned(plan, member, e) && IdsDiffer(e)
    ensures (forall incident :: !Pollutes(member, e, incident)) ==> NoEntityEffect(plan.effects)
    ensures forall incident :: Pollutes(member, e, incident) ==>
      exists effect :: Mends(effect, member, e, incident) && OnlyEntityEffect(plan.effects, effect)
  {
    if e.tool.Some? {
      var tool := e.tool.value;
      var incident, survivor :| Decided(plan, member, e, tool, incident, survivor);
      hide Planned, Decided, EffectsFit, Pollutes, Mends, SomeRestorable, LatestRestorable, GoesBack;
      ActsOnPollution(plan, member, e, tool, incident, survivor);
      assert EffectsFit(plan, e, tool, incident, survivor) by { DecidedParts(plan, member, e, tool, incident, survivor); }
      EntityPart(plan, e, tool, incident, survivor);
      EntityPartIs(plan.action, tool.entity, survivor);
      if incident.Some? && Pollutes(member, e, incident.value) {
        var effect := MendingEffect(plan, member, e, tool, incident, survivor);
        assert OnlyEntityEffect(plan.effects, effect);
      }
    }
  }

  /** A reset leads from the pollution to unresolved, and only a restoration or a reset touches the entity. */
  lemma ResetMeansUnresolved(plan: MemberPlan, member: Member, e: Evidence)
    requires Planned(plan, member, e)
    ensures plan.action == Reset ==> OnlyEntityEffect(plan.effects, EntityEffect(Entity(NonProduct, Auto), Entity(Unresolved, Auto)))
    ensures plan.action != Reset && plan.action != Restore ==> NoEntityEffect(plan.effects)
  {
    if e.tool.Some? {
      var tool := e.tool.value;
      var incident, survivor :| Decided(plan, member, e, tool, incident, survivor);
      DecidedParts(plan, member, e, tool, incident, survivor);
      EntityPartIs(plan.action, tool.entity, survivor);
      assert plan.action == Reset ==> tool.entity == Entity(NonProduct, Auto) && incident.Some?;
      hide Planned, Decided, EffectsFit, PointerDecides, SurvivorFits;
      EntityPart(plan, e, tool, incident, survivor);
    }
  }

  lemma DecidedParts(plan: MemberPlan, member: Member, e: Evidence, tool: Tool, incident: Option<Run>, survivor: Option<Run>)
    requires Decided(plan, member, e, tool, incident, survivor)
    ensures EffectsFit(plan, e, tool, incident, survivor) && SurvivorFits(plan.action, e, tool, incident, survivor)
    ensures plan.run == if incident.Some? then IdOf(incident) else member.run
    ensures PointerDecides(member, e.runs, incident)
  {
  }

  lemma MendingEffect(plan: MemberPlan, member: Member, e: Evidence, tool: Tool, incident: Option<Run>, survivor: Option<Run>)
    returns (effect: Effect)
    requires e.tool == Some(tool) && IdsDiffer(e) && Decided(plan, member, e, tool, incident, survivor)
    requires incident.Some? && Pollutes(member, e, incident.value)
    ensures EntityEffects(plan.action, tool.entity, survivor) == [effect] && Mends(effect, member, e, incident.value)
    ensures effect.EntityEffect? && !Undecided(plan.action)
  {
    ActsOnPollution(plan, member, e, tool, incident, survivor);
    if plan.action == Restore {
      var run := survivor.value;
      RestorableHasKind(run, incident.value);
      LastToGoBack(run, e, incident.value);
      effect := EntityEffect(tool.entity, Entity(run.kind.value, Auto));
    } else {
      effect := EntityEffect(tool.entity, Entity(Unresolved, Auto));
    }
    hide SurvivorFits, EffectsFit, BlockersFit, Captured, LatestRestorable, Restorable, LastWord, SomeLaterClean;
  }

  lemma LastToGoBack(run: Run, e: Evidence, incident: Run)
    requires LatestRestorable(run, e.runs, incident)
    ensures GoesBackLast(run, e, incident)
  {
    forall r: Run, other: Run ensures Precedes(r, other) == Earlier(r, other) && GoesBack(r, other) == Restorable(r, other) { SameWords(r, other); }
    hide GoesBack, Restorable, Precedes, Earlier;
  }

  // ---------- assignments and profiles ----------

  /** The run a plan names was found among those of the tool. */
  ghost predicate Found(plan: MemberPlan, member: Member, e: Evidence, run: Run) {
    run in e.runs && plan.run == Some(run.id) && (member.run.Some? ==> run.tool == member.tool)
  }

  /** An automatic assignment of the run that still stands. */
  ghost predicate StillStands(e: Evidence, run: Run, effect: Effect) {
    exists a :: a in e.assignments && a.run == Some(run.id) && a.source == Auto && a.status != Superseded && a.status != Rejected
                && effect == AssignmentEffect(a.id, a.status)
  }

  /** The profile was extracted within an hour of the run, says nothing, and no clean run came later. */
  ghost predicate ProfileIsOf(e: Evidence, run: Run, effect: Effect) {
    && e.tool.Some? && e.tool.value.profile.Some?
    && var profile := e.tool.value.profile.value;
    && profile.neutral && run.created - profile.stamp.extracted <= 3600000 && profile.stamp.extracted - run.created <= 3600000
    && LastWord(e, run) && effect == ProfileEffect(profile.stamp)
  }

  /** What falls with a decided member: the run's own standing assignments and its profile, and nothing else. */
  lemma RowsThatFall(plan: MemberPlan, member: Member, e: Evidence, run: Run, effect: Effect)
    requires Planned(plan, member, e) && IdsDiffer(e) && Found(plan, member, e, run) && e.tool.Some? && !effect.EntityEffect?
    ensures effect in plan.effects <==>
      plan.action != Ambiguous && (StillStands(e, run, effect) || ProfileIsOf(e, run, effect))
  {
    var tool := e.tool.value;
    var incident, survivor :| Decided(plan, member, e, tool, incident, survivor);
    DecidedParts(plan, member, e, tool, incident, survivor);
    FoundIsTheIncident(plan, member, e, run, incident);
    NeverInvestigated(plan, member, e, tool, incident, survivor);
    hide Planned, Decided, SurvivorFits, PointerDecides, Found;
    if incident.Some? && !Undecided(plan.action) {
      var one, two := AssignmentEffects(e.assignments, run.id), EntityEffects(plan.action, tool.entity, survivor);
      var three := if ProfileMatches(tool, run) && !SomeLaterClean(e.runs, run) then [ProfileEffect(tool.profile.value.stamp)] else [];
      AssignmentEffectsAre(e.assignments, run.id);
      EntityPartIs(plan.action, tool.entity, survivor);
      SameLast(e, run);
      assert plan.effects == one + two + three;
      hide EntityEffects, AssignmentEffects, EffectsFit;
      assert effect in plan.effects <==> effect in one || effect in two || effect in three;
      assert effect in one <==> StillStands(e, run, effect) by { StandsAre(e, run, effect); }
      hide LastWord, SomeLaterClean;
    }
  }

  lemma StandsAre(e: Evidence, run: Run, effect: Effect)
    ensures Supersedes(e.assignments, run.id, effect) <==> StillStands(e, run, effect)
  {
    if Supersedes(e.assignments, run.id, effect) {
      var a :| a in e.assignments && Standing(a, run.id) && effect == Superseding(a);
    }
    if StillStands(e, run, effect) {
      var a :| a in e.assignments && a.run == Some(run.id) && a.source == Auto && a.status != Superseded && a.status != Rejected
               && effect == AssignmentEffect(a.id, a.status);
      assert Standing(a, run.id) && effect == Superseding(a);
    }
  }

  lemma SameLast(e: Evidence, run: Run)
    ensures LastWord(e, run) <==> !SomeLaterClean(e.runs, run)
  {
    forall r: Run, other: Run ensures Counts(r) == Clean(r) && Precedes(r, other) == Earlier(r, other) { SameWords(r, other); }
    hide Counts, Clean, Precedes, Earlier;
  }

  lemma NeverInvestigated(plan: MemberPlan, member: Member, e: Evidence, tool: Tool, incident: Option<Run>, survivor: Option<Run>)
    requires Decided(plan, member, e, tool, incident, survivor)
    ensures plan.action != Investigate && (incident.None? ==> plan.effects == [])
  {
  }

  /** A found run is the incident's. */
  lemma FoundIsTheIncident(plan: MemberPlan, member: Member, e: Evidence, run: Run, incident: Option<Run>)
    requires IdsDiffer(e) && Found(plan, member, e, run) && PointerDecides(member, e.runs, incident)
    requires plan.run == if incident.Some? then IdOf(incident) else member.run
    ensures incident == Some(run)
  {
    if incident.None? { assert Captured(member, run, e.runs); }
  }

  // ---------- a run that was only derived ----------

  /** A refusal of the tool as no product, made before the capture and under its prompt. */
  predicate Refuses(run: Run, cutoff: Option<Time>, prompt: Option<nat>) {
    && run.refused && run.kind == Some(NonProduct)
    && (cutoff.Some? ==> run.created <= cutoff.value) && (prompt.Some? ==> run.prompt == prompt.value)
  }

  predicate LastRefusal(run: Run, runs: seq<Run>, cutoff: Option<Time>, prompt: Option<nat>) {
    run in runs && Refuses(run, cutoff, prompt) && forall r :: r in runs && Refuses(r, cutoff, prompt) ==> !Precedes(run, r)
  }

  /** Without a pointer the planner takes the last refusal there is. */
  lemma DerivedRunIsARefusal(member: Member, runs: seq<Run>, cutoff: Option<Time>, prompt: Option<nat>, run: Option<RunId>)
    requires member.run.None? && CandidateDecides(member, runs, cutoff, prompt, run)
    ensures run.None? ==> forall r :: r in runs ==> !Refuses(r, cutoff, prompt)
    ensures run.Some? ==> exists r: Run :: r.id == run.value && LastRefusal(r, runs, cutoff, prompt)
  {
    assert forall r :: Refuses(r, cutoff, prompt) <==> Candidate(r, cutoff, prompt);
    assert forall r, other :: Precedes(r, other) <==> Earlier(r, other);
    hide Refuses, Candidate, Precedes, Earlier;
  }

  // ---------- blockers and readiness ----------

  /** The captured run: named by the member, and of its tool. */
  ghost predicate CapturedAs(member: Member, e: Evidence, run: Run) {
    run in e.runs && member.run == Some(run.id) && run.tool == member.tool
  }

  ghost predicate ProfileOfTheHour(e: Evidence, run: Run) {
    && e.tool.Some? && e.tool.value.profile.Some?
    && var profile := e.tool.value.profile.value;
    && profile.neutral && run.created - profile.stamp.extracted <= 3600000 && profile.stamp.extracted - run.created <= 3600000
  }

  /** When each blocker is raised. */
  ghost predicate Raised(blocker: Blocker, plan: MemberPlan, member: Member, e: Evidence) {
    match blocker
    case ToolNotFound => e.tool.None?
    case PointerNotReconstructed => e.tool.Some? && member.run.None? && plan.run.None?
    case PointerNotCaptured => e.tool.Some? && member.run.None? && plan.run.Some?
    case CapturedRunNotFound => e.tool.Some? && member.run.Some? && forall r :: r in e.runs ==> r.id != member.run.value
    case CapturedRunToolMismatch =>
      e.tool.Some? && member.run.Some? && exists r :: r in e.runs && r.id == member.run.value && r.tool != member.tool
    case CapturedRunNotNonProduct => e.tool.Some? && exists r :: CapturedAs(member, e, r) && r.kind != Some(NonProduct)
    case CapturedRunErrorMismatch => e.tool.Some? && exists r :: CapturedAs(member, e, r) && !r.refused
    case NonAutoAssignment =>
      e.tool.Some? && exists r, a :: Found(plan, member, e, r) && a in e.assignments && a.run == Some(r.id) && a.source != Auto
    case ActiveRequest => e.tool.Some? && e.activeRequest
    case EntityDisagrees => e.tool.Some? && plan.action == Ambiguous && exists r :: Found(plan, member, e, r) && !LastWord(e, r)
    case ProfileSurvived => exists r :: Found(plan, member, e, r) && ProfileOfTheHour(e, r) && !LastWord(e, r)
  }

  lemma IncidentIsFound(plan: MemberPlan, member: Member, e: Evidence, incident: Option<Run>)
    requires IdsDiffer(e) && PointerDecides(member, e.runs, incident)
    requires plan.run == if incident.Some? then IdOf(incident) else member.run
    ensures forall r :: Found(plan, member, e, r) <==> incident == Some(r)
    ensures member.run.Some? ==> forall r :: CapturedAs(member, e, r) <==> incident == Some(r)
  {
    forall r | Found(plan, member, e, r) ensures incident == Some(r) { FoundIsTheIncident(plan, member, e, r, incident); }
    if member.run.Some? {
      forall r ensures CapturedAs(member, e, r) <==> incident == Some(r) {
        assert CapturedAs(member, e, r) <==> Captured(member, r, e.runs);
        if CapturedAs(member, e, r) { assert Found(plan, member, e, r); }
      }
    }
  }

  /** The incident, if there is one, is what the conditions speak of. */
  lemma RaisedTells(plan: MemberPlan, member: Member, e: Evidence, tool: Tool, incident: Option<Run>, blocker: Blocker)
    requires e.tool == Some(tool) && IdsDiffer(e) && PointerDecides(member, e.runs, incident)
    requires plan.run == if incident.Some? then IdOf(incident) else member.run
    requires forall r :: Found(plan, member, e, r) <==> incident == Some(r)
    requires member.run.Some? ==> forall r :: CapturedAs(member, e, r) <==> incident == Some(r)
    requires incident.Some? ==> (LastWord(e, incident.value) <==> !SomeLaterClean(e.runs, incident.value))
    ensures blocker in AllBlockers(plan.action, member, e, tool, incident) <==> Raised(blocker, plan, member, e)
  {
    hide LastWord, SomeLaterClean;
    OneOfEachId(e);
    hide IdsDiffer;
    if incident.Some? {
      assert Found(plan, member, e, incident.value);
      assert member.run.Some? ==> CapturedAs(member, e, incident.value);
    }
    match blocker
    case CapturedRunNotFound => hide Found, ProfileMatches, PointsToNonAuto;
    case CapturedRunToolMismatch =>
      hide Found, ProfileMatches, PointsToNonAuto;
      if incident.None? && member.run.Some? && Named(member, e.runs) {
        var r :| r in e.runs && r.id == member.run.value;
        assert !Captured(member, r, e.runs);
      }
    case CapturedRunNotNonProduct => hide Found, ProfileMatches, PointsToNonAuto, PointerDecides; NoCapture(member, e);
    case CapturedRunErrorMismatch => hide Found, ProfileMatches, PointsToNonAuto, PointerDecides; NoCapture(member, e);
    case NonAutoAssignment =>
      hide Found, CapturedAs, ProfileMatches, PointerDecides;
      if incident.Some? && PointsToNonAuto(e.assignments, incident.value.id) {
        var a :| a in e.assignments && a.run == Some(incident.value.id) && a.source != Auto;
        assert Found(plan, member, e, incident.value) && a in e.assignments;
      }
      if Raised(blocker, plan, member, e) {
        var r, a :| Found(plan, member, e, r) && a in e.assignments && a.run == Some(r.id) && a.source != Auto;
      }
    case EntityDisagrees => hide Found, CapturedAs, ProfileMatches, PointsToNonAuto, PointerDecides;
    case ProfileSurvived => hide Found, CapturedAs, PointsToNonAuto, PointerDecides;
    case _ => hide Found, CapturedAs, ProfileMatches, PointsToNonAuto;
  }

  lemma OneOfEachId(e: Evidence)
    requires IdsDiffer(e)
    ensures forall a, b :: a in e.runs && b in e.runs && a.id == b.id ==> a == b
  {
  }

  lemma NoCapture(member: Member, e: Evidence)
    ensures member.run.None? ==> forall r :: !CapturedAs(member, e, r)
  {
  }

  /** A plan has exactly the blockers that are raised. */
  lemma BlockersTell(plan: MemberPlan, member: Member, e: Evidence, blocker: Blocker)
    requires Planned(plan, member, e) && IdsDiffer(e)
    ensures blocker in plan.blockers <==> Raised(blocker, plan, member, e)
  {
    if e.tool.Some? {
      var tool := e.tool.value;
      var incident, survivor :| Decided(plan, member, e, tool, incident, survivor);
      DecidedParts(plan, member, e, tool, incident, survivor);
      assert plan.blockers == AllBlockers(plan.action, member, e, tool, incident);
      hide Planned, Decided, EffectsFit, SurvivorFits, AllBlockers, PointerDecides, Raised, IdsDiffer;
      IncidentIsFound(plan, member, e, incident);
      if incident.Some? { SameLast(e, incident.value); }
      RaisedTells(plan, member, e, tool, incident, blocker);
    }
  }

  /** A verified manual primary market, which no effect on assignments may accompany. */
  predicate Gold(e: Evidence) {
    exists a :: a in e.assignments && a.inPrimaryCategory && a.source == Manual && a.status == Verified && a.primary
  }

  /** What keeps a member out of a ready report. */
  ghost predicate KeepsBack(plan: MemberPlan, member: Member, e: Evidence) {
    || e.tool.None? || plan.action == Ambiguous || e.activeRequest
    || (exists blocker :: Raised(blocker, plan, member, e))
    || (e.tool.value.entity.source == Manual && plan.effects != [])
    || (Gold(e) && exists effect :: effect in plan.effects && effect.AssignmentEffect?)
    || (plan.action == Repaired && plan.effects != [])
  }

  /** A report is ready exactly if nothing keeps any of its members back. */
  lemma ReadyTells(plan: MemberPlan, member: Member, e: Evidence)
    requires Planned(plan, member, e) && IdsDiffer(e)
    ensures Clear(plan) <==> !KeepsBack(plan, member, e)
    ensures Clear(plan) ==> ValidMember(plan)
  {
    forall blocker ensures blocker in plan.blockers <==> Raised(blocker, plan, member, e) { BlockersTell(plan, member, e, blocker); }
    if e.tool.Some? {
      var tool := e.tool.value;
      var incident, survivor :| Decided(plan, member, e, tool, incident, survivor);
      NeverInvestigated(plan, member, e, tool, incident, survivor);
      GoldIs(plan, member, e, tool, incident, survivor);
      assert plan.current == Some(tool.entity);
      assert forall i :: 0 <= i < |plan.effects| ==> plan.effects[i] in plan.effects;
      hide Planned, Decided, Raised, Gold;
      if plan.blockers == {} { ClearHasRun(plan, member, e); }
    } else {
      assert plan.action == Investigate;
      hide Raised;
    }
  }

  lemma GoldIs(plan: MemberPlan, member: Member, e: Evidence, tool: Tool, incident: Option<Run>, survivor: Option<Run>)
    requires Decided(plan, member, e, tool, incident, survivor)
    ensures plan.gold <==> Gold(e)
    ensures plan.active == e.activeRequest
  {
  }

  lemma ClearHasRun(plan: MemberPlan, member: Member, e: Evidence)
    requires Planned(plan, member, e) && plan.blockers == {}
    ensures plan.run.Some?
  {
    if e.tool.Some? {
      var tool := e.tool.value;
      var incident, survivor :| Decided(plan, member, e, tool, incident, survivor);
      assert PointerNotReconstructed !in RunBlockers(member, e.runs, incident);
    }
  }

  /** What the validation accepts: members with a run and an action, unblocked, no manual entity touched, no tool or run twice. */
  lemma ValidTells(plans: seq<MemberPlan>)
    ensures Valid(plans) <==>
      && plans != []
      && (forall i :: 0 <= i < |plans| ==>
            && plans[i].run.Some? && plans[i].action != Ambiguous && plans[i].action != Investigate && plans[i].blockers == {}
            && !(plans[i].current.Some? && plans[i].current.value.source == Manual && plans[i].effects != []))
      && (forall i, j :: 0 <= i < j < |plans| ==> plans[i].tool != plans[j].tool && plans[i].run != plans[j].run)
  {
  }

  /** The guards of a member: pending under this plan, its run there, nothing newer, nobody at work on the tool, every row as planned. */
  lemma GuardsTell(db: Db, plan: MemberPlan, frozenAt: Time)
    ensures MayApply(db, plan, frozenAt) && (forall effect :: effect in plan.effects ==> MayEffect(db, plan, effect)) <==>
      && plan.tool in db.members && db.members[plan.tool].plan == plan && db.members[plan.tool].status == Pending
      && RunOf(plan) in db.runs && db.runs[RunOf(plan)].tool == plan.tool
      && (forall r :: r in db.runs && db.runs[r].tool == plan.tool ==> db.runs[r].created <= frozenAt)
      && plan.tool in db.tools && plan.tool !in db.requests && plan.tool !in db.decisions
      && forall effect :: effect in plan.effects ==>
           match effect
           case EntityEffect(from, _) => db.tools[plan.tool] == from
           case ProfileEffect(stamp) =>
             plan.tool in db.profiles && db.profiles[plan.tool].stamp == stamp && db.profiles[plan.tool].neutral
           case AssignmentEffect(id, status) =>
             && id in db.assignments && db.assignments[id].tool == plan.tool && db.assignments[id].run == Some(RunOf(plan))
             && db.assignments[id].source == Auto && db.assignments[id].status == status
  {
  }

  // ---------- once the batch has committed ----------

  /** The batch settled the member. */
  predicate SettledBy(db: Db, d: Db, t: ToolId) { SettledAt(d.members, t) && !SettledAt(db.members, t) }

  lemma SettledPlan(db: Db, plans: seq<MemberPlan>, batch: seq<MemberPlan>, t: ToolId)
    requires Inv(db) && SettledBy(db, Next(db, Batch(plans, batch)), t) && t in db.members
    ensures var d := Next(db, Batch(plans, batch));
      t in DoneBy(batch) && DoneBy(batch)[t] == db.members[t].plan && ToolsPlanned(db.tools, d.tools, DoneBy(batch))
  {
    BatchEither(db, plans, batch);
    hide Next, Inv, LedgerInv, ProfilesPlanned, AssignmentsPlanned, ToolsPlanned, DoneBy;
  }

  lemma PlannedEntity(before: map<ToolId, Entity>, after: map<ToolId, Entity>, done: map<ToolId, MemberPlan>, t: ToolId, effect: Effect)
    requires ToolsPlanned(before, after, done) && t in done && effect in done[t].effects && effect.EntityEffect?
    ensures t in before && t in after && before[t] == effect.from && after[t] == effect.to
  {
  }

  /** A tool whose entity was still polluted is left mended, whatever else its batch did. */
  lemma MendedToolEnds(db: Db, plans: seq<MemberPlan>, batch: seq<MemberPlan>, t: ToolId, member: Member, e: Evidence, incident: Run)
    requires Inv(db) && SettledBy(db, Next(db, Batch(plans, batch)), t)
    requires t in db.members && Planned(db.members[t].plan, member, e) && IdsDiffer(e) && Pollutes(member, e, incident)
    ensures var d := Next(db, Batch(plans, batch));
      && t in db.tools && t in d.tools && Mends(EntityEffect(db.tools[t], d.tools[t]), member, e, incident)
  {
    var d, plan := Next(db, Batch(plans, batch)), db.members[t].plan;
    hide *;
    EntityIsMended(plan, member, e);
    var effect :| Mends(effect, member, e, incident) && OnlyEntityEffect(plan.effects, effect);
    OnlyIs(plan.effects, effect);
    SettledPlan(db, plans, batch, t);
    PlannedEntity(db.tools, d.tools, DoneBy(batch), t, effect);
    assert effect == EntityEffect(db.tools[t], d.tools[t]);
  }

  lemma OnlyIs(effects: seq<Effect>, effect: Effect)
    requires OnlyEntityEffect(effects, effect)
    ensures effect in effects && effect.EntityEffect?
  {
  }

  /** So a tool with nothing to go back to ends unresolved, and automatic. */
  lemma ResetToolEnds(db: Db, plans: seq<MemberPlan>, batch: seq<MemberPlan>, t: ToolId, member: Member, e: Evidence, incident: Run)
    requires Inv(db) && SettledBy(db, Next(db, Batch(plans, batch)), t)
    requires t in db.members && Planned(db.members[t].plan, member, e) && IdsDiffer(e) && Pollutes(member, e, incident)
    requires forall run :: run in e.runs ==> !GoesBack(run, incident)
    ensures t in db.tools && db.tools[t] == Entity(NonProduct, Auto)
    ensures var d := Next(db, Batch(plans, batch)); t in d.tools && d.tools[t] == Entity(Unresolved, Auto)
  {
    MendedToolEnds(db, plans, batch, t, member, e, incident);
    hide Next, Planned, Inv, Pollutes, GoesBack, GoesBackLast;
  }

  /** What a settled member is left as: audited only if its action allows it and nothing was to change, else applied. */
  lemma SettledStatusTells(db: Db, plans: seq<MemberPlan>, batch: seq<MemberPlan>, t: ToolId)
    requires Inv(db) && SettledBy(db, Next(db, Batch(plans, batch)), t) && t in db.members
    ensures var d, plan := Next(db, Batch(plans, batch)), db.members[t].plan;
      && db.members[t].status == Pending && t in d.members && d.members[t].plan == plan
      && (d.members[t].status == AuditedOnly || d.members[t].status == Applied)
      && (d.members[t].status == AuditedOnly <==>
            plan.effects == [] && plan.action != Restore && plan.action != Reset && plan.action != Ambiguous && plan.action != Investigate)
  {
    SettledRow(db, plans, batch, t);
    hide Next, Inv, SettledBy;
  }

  lemma SettledRow(db: Db, plans: seq<MemberPlan>, batch: seq<MemberPlan>, t: ToolId)
    requires Inv(db) && SettledBy(db, Next(db, Batch(plans, batch)), t) && t in db.members
    ensures var d, plan := Next(db, Batch(plans, batch)), db.members[t].plan;
      db.members[t].status == Pending && t in d.members && d.members[t] == MemberRow(plan, FinalStatus(plan))
  {
    BatchEither(db, plans, batch);
    hide Next, Inv, LedgerInv, ProfilesPlanned, AssignmentsPlanned, ToolsPlanned, DoneBy, FinalStatus;
  }

  // ---------- the other steps ----------

  /** Members are frozen as pending under their plans; one that is there stays as it is. */
  lemma {:induction false} FrozenMembersTell(members: map<ToolId, MemberRow>, plans: seq<MemberPlan>)
    requires DifferentMembers(plans)
    ensures var more := WithMembers(members, plans);
      && (forall t :: t in members ==> t in more && more[t] == members[t])
      && (forall t :: t in more ==> t in members || exists i :: 0 <= i < |plans| && plans[i].tool == t)
      && (forall i :: 0 <= i < |plans| && plans[i].tool !in members ==>
            plans[i].tool in more && more[plans[i].tool] == MemberRow(plans[i], Pending))
  {
    if plans != [] {
      var front, last := plans[..|plans| - 1], plans[|plans| - 1];
      FrozenMembersTell(members, front);
      forall i | 0 <= i < |plans| && plans[i].tool !in members
        ensures plans[i].tool in WithMembers(members, plans) && WithMembers(members, plans)[plans[i].tool] == MemberRow(plans[i], Pending)
      {
        if i < |front| { assert front[i] == plans[i]; }
      }
    }
  }

  /** Freezing: one incident, of plans that are ready; then its members, page by page. */
  lemma FreezingTells(db: Db, plans: seq<MemberPlan>, now: Time, from: nat, to: nat)
    ensures Next(db, Freeze(plans, now)) == if db.incident.None? && Ready(plans) then db.(incident := Some(Incident(plans, Frozen, now))) else db
    ensures Next(db, FreezeMembers(plans, from, to)) ==
      if db.incident.Some? && db.incident.value.plans == plans && from <= to && to <= |plans|
      then db.(members := WithMembers(db.members, plans[from..to])) else db
  {
    hide Ready, Execute, WithMembers;
  }

  /** An incident is applied once every member is frozen under its plan, unless it is closed already. */
  lemma BeginningTells(db: Db, plans: seq<MemberPlan>)
    ensures Next(db, Begin(plans)) ==
      if db.incident.Some? && db.incident.value.plans == plans && db.incident.value.status != Closed &&
         forall plan :: plan in plans ==> plan.tool in db.members && db.members[plan.tool].plan == plan
      then db.(incident := Some(db.incident.value.(status := Applying))) else db
  {
    hide Execute;
    assert (forall plan :: plan in plans ==> plan.tool in db.members && db.members[plan.tool].plan == plan) <==> AllFrozen(db.members, plans);
    hide AllFrozen;
  }

  /** It is closed while it is applied, once no member is pending. */
  lemma ClosingTells(db: Db, plans: seq<MemberPlan>)
    ensures Next(db, Close(plans)) ==
      if db.incident.Some? && db.incident.value.plans == plans && db.incident.value.status == Applying &&
         forall t :: t in db.members ==> db.members[t].status != Pending
      then db.(incident := Some(db.incident.value.(status := Closed))) else db
  {
    hide Execute;
    assert (forall t :: t in db.members ==> db.members[t].status != Pending) <==> NonePending(db.members);
    hide NonePending;
  }

  /** Between the steps of a rollback, others may bring their own rows into any state. */
  lemma OthersMayDoAnything(db: Db, other: Db)
    requires other.incident == db.incident && other.members == db.members && other.audits == db.audits && other.changes == db.changes
    ensures Next(db, Elsewhere(other.tools, other.profiles, other.assignments, other.runs, other.requests, other.decisions)) == other
  {
    hide Execute;
  }
}

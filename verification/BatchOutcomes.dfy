/** Where a result takes its item: the whole world after apply_request_result, stage by stage. */
module BatchOutcomes {
  import opened Prelude
  import opened Assignments
  import opened Acceptance
  import opened BatchItems
  import opened BatchWrites
  import opened BatchShape
  import opened BatchEvents
  import opened BatchRecovery

  // ---------- four ways to go on ----------

  /** Asked at a stage: an open or answered request of it is reused, else one is queued. */
  ghost predicate Asked(v: World, t: World, stage: Stage) {
    && t.item == v.item.(stage := stage, status := Running, retry := NoRetry, retryAttempt := 0)
    && t.rows == v.rows && t.runs == v.runs && t.stored == v.stored
    && t.requests == if exists i :: 0 <= i < |At(v.requests, stage)| && !At(v.requests, stage)[i].Broken? then v.requests
                     else v.requests[stage := At(v.requests, stage) + [Queued(false)]]
  }

  /** Ended without a leaf, under its own run or a new one; no assignment is touched. */
  ghost predicate EndedWithout(v: World, t: World, status: ItemStatus) {
    && t.item.status == status && t.item.stage.Complete? && t.item.source.None? && t.item.retry.NoRetry?
    && t.item.profile == v.item.profile && t.item.l1 == v.item.l1 && t.item.leaf == v.item.leaf && t.item.capability == v.item.capability
    && t.rows == v.rows && t.requests == v.requests && t.stored == v.stored
    && if v.item.run.Some? then t.item.run == v.item.run && t.runs == v.runs
       else t.item.run == Some(|v.runs|) && t.runs == v.runs + [if status.NeedsReview? then Partial else status]
  }

  /** Finalised: the assignments are those of the decision, under the item's run, which tells whether the capability stage failed. */
  ghost predicate Finalises(j: Judge, v: World, t: World, leaf: Leaf, failed: bool)
    requires v.item.l1.Some? && v.item.leaf.Some?
  {
    var run := if v.item.run.Some? then v.item.run.value else |v.runs|;
    var status := if failed then Partial else Succeeded;
    var hits, p := j.hits(v.item.l1.value), ProfileOf(v.item);
    var d := Decision(Chosen(leaf.term.id, leaf.confidence), j.secondary(v.item.leaf.value, hits, p),
                      if v.item.capability.Some? then j.capabilities(v.item.capability.value, p) else [],
                      v.item.capability.Some?, Some(run), j.gate.threshold);
    && t.item.status == status && t.item.stage.Complete? && t.item.run == Some(run) && t.item.source.None? && t.item.retry.NoRetry?
    && t.rows == Finalised(v.rows, j.catalog, d, ManualLock(v.rows, j.catalog), NOW)
    && t.requests == v.requests && t.stored == v.stored
    && t.runs == if v.item.run.Some? then (if run < |v.runs| then v.runs[run := status] else v.runs) else v.runs + [status]
  }

  /** Finalised if it has an eligible leaf, else ended in review. */
  ghost predicate Classified(j: Judge, v: World, t: World, failed: bool) {
    var leaf := if v.item.leaf.Some? then j.leaf(v.item.leaf.value, HitsOf(j, v.item), ProfileOf(v.item)) else None;
    if leaf.Some? && Eligible(leaf, ProfileOf(v.item), HitsOf(j, v.item), j.gate)
    then v.item.l1.Some? && Finalises(j, v, t, leaf.value, failed)
    else EndedWithout(v, t, NeedsReview)
  }

  // ---------- the moves ----------

  lemma AskIsAsked(j: Judge, v: World, stage: Stage)
    ensures Asked(v, PerformAll(j, v, Make(j, v, Ask(stage))), stage)
  {
    Single(j, v, EnterStage(stage));
    PairOfWrites(j, v, InsertRequest(stage), EnterStage(stage));
    assert HasLiveRequest(v.requests, stage) <==> exists i :: 0 <= i < |At(v.requests, stage)| && !At(v.requests, stage)[i].Broken?;
  }

  lemma EndIsWithout(j: Judge, v: World, status: ItemStatus)
    ensures EndedWithout(v, PerformAll(j, v, CompleteWithoutLeaf(v, status)), status)
  {
    if v.item.run.Some? {
      Single(j, v, Finish(status, v.item.run.value));
    } else {
      PairOfWrites(j, v, InsertRun(if status.NeedsReview? then Partial else status), Finish(status, |v.runs|));
    }
  }

  /** No hits, no supported parent, no eligible leaf. */
  lemma EligibleHasHits(decision: Option<Leaf>, p: Profile, hits: seq<Hit>, gate: Gate)
    requires Eligible(decision, p, hits, gate)
    ensures hits != []
  {
  }

  lemma OpeningIs(j: Judge, v: World)
    ensures var run := if v.item.run.Some? then v.item.run.value else |v.runs|;
      PerformAll(j, v, if v.item.run.Some? then [] else [InsertRun(Partial), SetRun(run)]) ==
        v.(item := v.item.(run := Some(run)), runs := if v.item.run.Some? then v.runs else v.runs + [Partial])
  {
    NoWrites(j, v);
    PairOfWrites(j, v, InsertRun(Partial), SetRun(|v.runs|));
  }

  lemma ClosingIs(j: Judge, v: World, run: RunId, status: ItemStatus)
    ensures PerformAll(j, v, [SetRunStatus(run, status), Finish(status, run)]) ==
      v.(item := v.item.(status := status, stage := Complete, run := Some(run), source := None, retry := NoRetry),
         runs := if run < |v.runs| then v.runs[run := status] else v.runs)
  {
    PairOfWrites(j, v, SetRunStatus(run, status), Finish(status, run));
  }

  lemma {:induction false} RowWritesKeepTheRest(j: Judge, v: World, ws: seq<Write>)
    requires forall i :: 0 <= i < |ws| ==> ws[i].WriteRow?
    ensures PerformAll(j, v, ws) == v.(rows := PerformAll(j, v, ws).rows)
    decreases |ws|
  {
    if ws != [] {
      assert ws[0].WriteRow?;
      assert forall i :: 0 <= i < |ws[1..]| ==> ws[1..][i] == ws[i + 1];
      RowWritesKeepTheRest(j, Perform(j, v, ws[0]), ws[1..]);
      hide ApplyRow;
    }
  }

  lemma FinalizeParts(j: Judge, v: World, failed: bool)
    requires LeafOf(j, v.item).Some? && ItemEligible(j, v.item)
    ensures var run := if v.item.run.Some? then v.item.run.value else |v.runs|; var status := if failed then Partial else Succeeded;
      Finalize(j, v, failed) ==
        (if v.item.run.Some? then [] else [InsertRun(Partial), SetRun(run)])
        + RowWrites(j.catalog, Decided(j, v.item, run), ManualLock(v.rows, j.catalog), run)
        + [SetRunStatus(run, status), Finish(status, run)]
  {
    hide RowWrites, Decided, LeafOf, ItemEligible, ManualLock;
  }

  /** The three parts, performed. */
  lemma FinalizePerforms(j: Judge, v: World, failed: bool)
    requires LeafOf(j, v.item).Some? && ItemEligible(j, v.item)
    ensures var run := if v.item.run.Some? then v.item.run.value else |v.runs|; var status := if failed then Partial else Succeeded;
      var runs := if v.item.run.Some? then v.runs else v.runs + [Partial];
      PerformAll(j, v, Finalize(j, v, failed)) ==
        World(v.item.(run := Some(run), status := status, stage := Complete, source := None, retry := NoRetry), v.requests,
              Finalised(v.rows, j.catalog, Decided(j, v.item, run), ManualLock(v.rows, j.catalog), NOW),
              if run < |runs| then runs[run := status] else runs, v.stored)
  {
    var run := if v.item.run.Some? then v.item.run.value else |v.runs|;
    var status := if failed then Partial else Succeeded;
    var d, locked := Decided(j, v.item, run), ManualLock(v.rows, j.catalog);
    var opening, closing := if v.item.run.Some? then [] else [InsertRun(Partial), SetRun(run)], [SetRunStatus(run, status), Finish(status, run)];
    var middle := RowWrites(j.catalog, d, locked, run);
    var x := PerformAll(j, v, opening);
    var y := PerformAll(j, x, middle);
    assert d.run == Some(run);
    hide RowWrites, Finalised, ManualLock, PerformAll, Eligible, ItemEligible, Finalize, Decided, LeafOf;
    FinalizeParts(j, v, failed);
    OpeningIs(j, v);
    RowWritesAreRows(j.catalog, d, locked, run);
    RowWritesKeepTheRest(j, x, middle);
    RowWritesFinalise(j, x, d, locked, run);
    ClosingIs(j, y, run, status);
    Appended(j, v, opening, middle);
    Appended(j, v, opening + middle, closing);
  }

  lemma FinalizeIs(j: Judge, v: World, failed: bool)
    requires LeafOf(j, v.item).Some? && ItemEligible(j, v.item) && v.item.l1.Some?
    ensures Finalises(j, v, PerformAll(j, v, Finalize(j, v, failed)), LeafOf(j, v.item).value, failed)
  {
    FinalizePerforms(j, v, failed);
    hide Finalised, ManualLock, PerformAll, ItemEligible, Finalize;
  }

  lemma ClassifyIs(j: Judge, v: World, failed: bool)
    ensures Classified(j, v, PerformAll(j, v, Finalize(j, v, failed)), failed)
  {
    if LeafOf(j, v.item).Some? && ItemEligible(j, v.item) {
      EligibleHasHits(LeafOf(j, v.item), ProfileOf(v.item), HitsOf(j, v.item), j.gate);
      hide Eligible, Finalize, PerformAll, Finalises;
      FinalizeIs(j, v, failed);
    } else {
      hide Eligible, PerformAll, EndedWithout;
      EndIsWithout(j, v, NeedsReview);
    }
  }

  /** Where a move takes the item. */
  ghost predicate LedTo(j: Judge, v: World, t: World, move: Move) {
    match move
    case Ask(stage) => Asked(v, t, stage)
    case EndWithoutLeaf(status) => EndedWithout(v, t, status)
    case Classify(failed) => Classified(j, v, t, failed)
    case RetryLater(stage, attempt) =>
      v.item.stage == stage ==> t == v.(item := v.item.(status := Pending, retry := ModelRetry, retryAttempt := attempt))
  }

  lemma MoveIs(j: Judge, v: World, move: Move)
    ensures LedTo(j, v, PerformAll(j, v, Make(j, v, move)), move)
  {
    hide PerformAll, EnqueueStage, CompleteWithoutLeaf, Finalize, Asked, EndedWithout, Classified;
    match move
    case Ask(stage) => AskIsAsked(j, v, stage);
    case EndWithoutLeaf(status) => EndIsWithout(j, v, status);
    case Classify(failed) => ClassifyIs(j, v, failed);
    case RetryLater(stage, attempt) => Single(j, v, ScheduleRetry(stage, attempt));
  }

  // ---------- a result, stage by stage ----------

  /** The world once the result is recorded in its request. */
  function Noted(w: World, key: ReqKey, req: Req): World
    requires Exists(w.requests, key)
  {
    w.(requests := w.requests[key.stage := At(w.requests, key.stage)[key.attempt - 1 := req]])
  }

  ghost function Applied(j: Judge, w: World, key: ReqKey, result: Result): World { PerformAll(j, w, ApplyResult(j, w, key, result)) }

  lemma AppliedIs(j: Judge, w: World, key: ReqKey, result: Result)
    requires Applies(w, key)
    ensures var stored := StoredFor(j, Noted(w, key, Outcome(w, key, result)), key, result);
      && Exists(stored.requests, key) && LedTo(j, stored, Applied(j, w, key, result), MoveFor(j, stored, key, result))
  {
    var close := Close(key, Outcome(w, key, result));
    var closed := Perform(j, w, close);
    var stored := StoredFor(j, closed, key, result);
    ResultParts(j, w, key, result);
    assert closed == Noted(w, key, Outcome(w, key, result));
    hide Make, StoresFor, MoveFor, PerformAll, ApplyResult, Perform, LedTo;
    MoveIs(j, stored, MoveFor(j, stored, key, result));
    Single(j, w, close);
    Appended(j, w, [close], StoresFor(j, closed, key, result));
    Appended(j, w, [close] + StoresFor(j, closed, key, result), Make(j, stored, MoveFor(j, stored, key, result)));
    assert StoredFor(j, closed, key, result) == PerformAll(j, closed, StoresFor(j, closed, key, result));
  }

  /** A profile: the markets are asked for exactly if the entity is accepted, eligible and has a signal. */
  lemma ProfileLeads(j: Judge, w: World, key: ReqKey, output: Output)
    requires Applies(w, key) && key.stage.ProfileStage?
    ensures var p, t := j.build(output, w.item.source), Applied(j, w, key, Success(output));
      var v := Noted(w, key, Done(Get(w.requests, key).jev, output)).(item := w.item.(profile := Some(p), source := None), stored := Some(p));
      if p.accepted && p.eligibleKind && p.signal then Asked(v, t, L1)
      else EndedWithout(v, t, if p.accepted then Skipped else Partial)
  {
    var p := j.build(output, w.item.source);
    var n := Noted(w, key, Done(Get(w.requests, key).jev, output));
    AppliedIs(j, w, key, Success(output));
    PairOfWrites(j, n, StoreProfile(p), SetProfile(p));
    var v := StoredFor(j, n, key, Success(output));
    hide PerformAll, Applied, Asked, EndedWithout, Classified, Noted;
  }

  /** The answer of a market stage, stored. */
  function MarketStored(w: World, key: ReqKey, output: Output): World
    requires Exists(w.requests, key)
  {
    Noted(w, key, Done(Get(w.requests, key).jev, output)).(item := w.item.(l1 := Some(output)))
  }

  /**
   The markets: the first answer is escalated exactly if it has no hit, a first hit below 0.55, or
   two hits closer than the gap; the second ends in review exactly if it has no hit.
   */
  lemma MarketLeads(j: Judge, w: World, key: ReqKey, output: Output)
    requires Applies(w, key) && (key.stage.L1? || key.stage.L1Escalation?)
    ensures var v, t, hits := MarketStored(w, key, output), Applied(j, w, key, Success(output)), j.hits(output);
      var gap := if j.gate.minGap > 0.0 then j.gate.minGap else 0.0;
      if key.stage.L1? && (|hits| == 0 || hits[0].confidence < 0.55 || (|hits| > 1 && hits[0].confidence - hits[1].confidence < gap))
      then Asked(v, t, L1Escalation)
      else if hits == [] then EndedWithout(v, t, NeedsReview)
      else Asked(v, t, LeafStage)
  {
    var n := Noted(w, key, Done(Get(w.requests, key).jev, output));
    AppliedIs(j, w, key, Success(output));
    Single(j, n, SetL1(output));
    var v := StoredFor(j, n, key, Success(output));
    assert v == MarketStored(w, key, output);
    hide PerformAll, Applied, Asked, EndedWithout, Classified, Noted;
  }

  function LeafStored(w: World, key: ReqKey, output: Output): World
    requires Exists(w.requests, key)
  {
    Noted(w, key, Done(Get(w.requests, key).jev, output)).(item := w.item.(leaf := Some(output)))
  }

  /** A leaf good enough to stand without the escalation model. */
  predicate Stands(j: Judge, leaf: Option<Leaf>, p: Profile, hits: seq<Hit>) {
    var gap := if j.gate.minGap > 0.0 then j.gate.minGap else 0.0;
    && leaf.Some? && leaf.value.grounded && leaf.value.confidence >= 0.5 && leaf.value.confidence >= j.leafMin
    && !(|hits| > 1 && hits[0].confidence - hits[1].confidence < gap)
    && Eligible(leaf, p, hits, j.gate)
  }

  /** Capabilities are asked for, or the item is finalised. */
  ghost predicate Decides(j: Judge, v: World, t: World) {
    if j.capabilitiesEnabled && ProfileOf(v.item).capabilities && j.candidates(ProfileOf(v.item), HitsOf(j, v.item), v.item.leaf)
    then Asked(v, t, CapabilityStage) else Classified(j, v, t, false)
  }

  lemma LeafGoes(j: Judge, item: Item, stage: Stage)
    ensures var leaf, p, hits := LeafOf(j, item), ProfileOf(item), HitsOf(j, item);
      AfterLeaf(j, item, stage) ==
        if stage.LeafStage? && !Stands(j, leaf, p, hits) then Ask(LeafEscalation)
        else if !Eligible(leaf, p, hits, j.gate) then EndWithoutLeaf(NeedsReview)
        else AfterDecision(j, item)
  {
    hide LeafOf, HitsOf, ProfileOf, AfterDecision;
    var leaf := LeafOf(j, item);
    assert Eligible(leaf, ProfileOf(item), HitsOf(j, item), j.gate) ==> leaf.Some? && leaf.value.grounded;
    hide Eligible;
  }

  /**
   The leaf: the first answer is escalated exactly if it does not stand; the second ends in review
   exactly if it is not eligible; what is left asks for capabilities or is finalised.
   */
  lemma LeafLeads(j: Judge, w: World, key: ReqKey, output: Output)
    requires Applies(w, key) && (key.stage.LeafStage? || key.stage.LeafEscalation?)
    ensures var v, t := LeafStored(w, key, output), Applied(j, w, key, Success(output));
      var hits, p := HitsOf(j, w.item), ProfileOf(w.item); var leaf := j.leaf(output, hits, p);
      if key.stage.LeafStage? && !Stands(j, leaf, p, hits) then Asked(v, t, LeafEscalation)
      else if !Eligible(leaf, p, hits, j.gate) then EndedWithout(v, t, NeedsReview)
      else Decides(j, v, t)
  {
    var n := Noted(w, key, Done(Get(w.requests, key).jev, output));
    AppliedIs(j, w, key, Success(output));
    Single(j, n, SetLeaf(output));
    var v := StoredFor(j, n, key, Success(output));
    assert v == LeafStored(w, key, output);
    LeafGoes(j, v.item, key.stage);
    hide PerformAll, Applied, Asked, EndedWithout, Classified, Noted, Eligible, AfterLeaf, Stands;
  }

  /** Capabilities: the item is classified with them. */
  lemma CapabilityLeads(j: Judge, w: World, key: ReqKey, output: Output)
    requires Applies(w, key) && key.stage.CapabilityStage?
    ensures var v := Noted(w, key, Done(Get(w.requests, key).jev, output)).(item := w.item.(capability := Some(output)));
      Classified(j, v, Applied(j, w, key, Success(output)), false)
  {
    var n := Noted(w, key, Done(Get(w.requests, key).jev, output));
    AppliedIs(j, w, key, Success(output));
    Single(j, n, SetCapability(output));
    var v := StoredFor(j, n, key, Success(output));
    hide PerformAll, Applied, Classified, Noted;
  }

  /**
   A failure: JEV's is asked again; a retryable one with attempts left waits for its retry; else
   markets and leaves go to their escalation model if it was retryable, capabilities are given up, and
   anything else ends in review.
   */
  lemma FailureLeads(j: Judge, w: World, key: ReqKey, retryable: bool)
    requires Applies(w, key) && !key.stage.Complete?
    ensures var jev, t := Get(w.requests, key).jev, Applied(j, w, key, Failure(retryable));
      var v := Noted(w, key, Broken(jev, retryable));
      if key.stage.CapabilityStage? && jev then Asked(v, t, CapabilityStage)
      else if retryable && key.attempt < j.maxAttempts then
        t == v.(item := w.item.(status := Pending, retry := ModelRetry, retryAttempt := key.attempt))
      else match key.stage
        case CapabilityStage => Classified(j, v, t, true)
        case L1 => if retryable then Asked(v, t, L1Escalation) else EndedWithout(v, t, NeedsReview)
        case LeafStage => if retryable then Asked(v, t, LeafEscalation) else EndedWithout(v, t, NeedsReview)
        case _ => EndedWithout(v, t, NeedsReview)
  {
    var jev := Get(w.requests, key).jev;
    var v := Noted(w, key, Broken(jev, retryable));
    AppliedIs(j, w, key, Failure(retryable));
    NoWrites(j, v);
    assert Get(v.requests, key).jev == jev;
    Single(j, v, ScheduleRetry(key.stage, key.attempt));
    hide PerformAll, Applied, Asked, EndedWithout, Classified, Noted;
  }

  // ---------- captures ----------

  ghost function Passed(j: Judge, w: World, pass: Pass): World { PerformAll(j, w, PassWrites(j, w, pass)) }

  /** A captured homepage is stored and its profile asked for. */
  lemma CaptureLeads(j: Judge, w: World, source: Text)
    ensures Asked(w.(item := w.item.(source := Some(source))), Passed(j, w, Captures(source)), ProfileStage)
  {
    var v := w.(item := w.item.(source := Some(source)));
    Single(j, w, SetSource(source));
    assert Make(j, v, Ask(ProfileStage)) == EnqueueStage(w, ProfileStage);
    Appended(j, w, [SetSource(source)], EnqueueStage(w, ProfileStage));
    hide PerformAll, EnqueueStage, Asked;
    AskIsAsked(j, v, ProfileStage);
  }

  /** A reused profile takes the place of the homepage, and the markets are asked for. */
  lemma ReuseLeads(j: Judge, w: World, p: Profile)
    ensures Asked(w.(item := w.item.(profile := Some(p), source := None)), Passed(j, w, Reuses(p)), L1)
  {
    var v := w.(item := w.item.(profile := Some(p), source := None));
    Single(j, w, SetProfile(p));
    assert Make(j, v, Ask(L1)) == EnqueueStage(w, L1);
    Appended(j, w, [SetProfile(p)], EnqueueStage(w, L1));
    hide PerformAll, EnqueueStage, Asked;
    AskIsAsked(j, v, L1);
  }

  /** Captures are tried again while the fault allows it: at most its own limit, at least once, and never past the policy's. */
  predicate TriesAgain(j: Judge, w: World, fault: Fault) {
    fault.retryable && w.item.retryAttempt + 1 < j.maxAttempts && w.item.retryAttempt + 1 < (if fault.limit > 1 then fault.limit else 1)
  }

  /** The item as the recovery leaves it before its first question. */
  function FromUpstream(w: World, p: Profile): World {
    w.(item := w.item.(profile := Some(p), source := None, stage := L1, status := Pending), stored := Some(p))
  }

  lemma RecoveryLeads(j: Judge, w: World, p: Profile)
    ensures Asked(FromUpstream(w, p), PerformAll(j, w, RecoverUpstream(w, p)), L1)
  {
    PairOfWrites(j, w, StoreProfile(p), Recover(p));
    assert Make(j, FromUpstream(w, p), Ask(L1)) == EnqueueStage(w, L1);
    Appended(j, w, [StoreProfile(p), Recover(p)], EnqueueStage(w, L1));
    hide PerformAll, EnqueueStage, Asked;
    AskIsAsked(j, FromUpstream(w, p), L1);
  }

  lemma CountedEnd(j: Judge, w: World, failed: nat)
    ensures EndedWithout(w.(item := w.item.(retryAttempt := failed)),
                         PerformAll(j, w, [CountSource(failed)] + CompleteWithoutLeaf(w, NeedsReview)), NeedsReview)
  {
    var v := w.(item := w.item.(retryAttempt := failed));
    Single(j, w, CountSource(failed));
    assert CompleteWithoutLeaf(v, NeedsReview) == CompleteWithoutLeaf(w, NeedsReview);
    Appended(j, w, [CountSource(failed)], CompleteWithoutLeaf(w, NeedsReview));
    hide PerformAll, CompleteWithoutLeaf, EndedWithout;
    EndIsWithout(j, v, NeedsReview);
  }

  /**
   A failed capture waits for its next attempt while there is one; else the item goes on from upstream
   quotes, stored as its profile, or ends in review with the attempt counted.
   */
  lemma FailedCaptureLeads(j: Judge, w: World, fault: Fault)
    ensures var t, failed := Passed(j, w, Fails(fault)), w.item.retryAttempt + 1;
      if TriesAgain(j, w, fault) then
        t == w.(item := w.item.(status := Pending, stage := ProfileStage, retry := SourceRetry, retryAttempt := failed))
      else if fault.upstream.Some? then Asked(FromUpstream(w, fault.upstream.value), t, L1)
      else EndedWithout(w.(item := w.item.(retryAttempt := failed)), t, NeedsReview)
  {
    var failed := w.item.retryAttempt + 1;
    assert TriesAgain(j, w, fault) <==> !Exhausts(j, w.item, fault);
    Single(j, w, ScheduleSource(failed));
    hide PerformAll, CompleteWithoutLeaf, RecoverUpstream, Asked, EndedWithout;
    if fault.upstream.Some? { RecoveryLeads(j, w, fault.upstream.value); }
    CountedEnd(j, w, failed);
  }

  /** Only an item that waits for its source is fetched again, and only a profile of its own with a signal is reused. */
  lemma SeedingLeads(j: Judge, w: World, pass: Pass)
    ensures var t := Next(j, w, Whole(Seed(pass)));
      if w.item.status == Pending && w.item.retry == SourceRetry && (pass.Reuses? ==> pass.profile.signal && !pass.profile.upstream)
      then t == Passed(j, w, pass) else t == w
  {
    NoWrites(j, w);
    hide PerformAll, PassWrites;
  }

  // ---------- resumption and reconciliation ----------

  /** A waiting item is asked again at its stage; any other is left alone. */
  lemma ResumptionLeads(j: Judge, w: World)
    ensures var t := PerformAll(j, w, ResumeRetry(w));
      if w.item.status == Pending && w.item.retry == ModelRetry && w.item.stage != Complete then Asked(w, t, w.item.stage) else t == w
  {
    NoWrites(j, w);
    hide PerformAll, EnqueueStage, Asked;
    AskIsAsked(j, w, w.item.stage);
  }

  /** A running item whose newest request is closed gets that request's result once more; any other is left alone. */
  lemma ReconciliationLeads(j: Judge, w: World)
    ensures var t, rs := PerformAll(j, w, Reconcile(j, w)), At(w.requests, w.item.stage);
      if w.item.status == Running && rs != [] && rs[|rs| - 1].Done? then
        t == Applied(j, w, ReqKey(w.item.stage, |rs|), Success(rs[|rs| - 1].output))
      else if w.item.status == Running && rs != [] && rs[|rs| - 1].Broken? then
        t == Applied(j, w, ReqKey(w.item.stage, |rs|), Failure(rs[|rs| - 1].retryable))
      else t == w
  {
    NoWrites(j, w);
    hide ApplyResult, PerformAll;
  }

  // ---------- submission ----------

  /** A submission marks one queued request; anything else leaves the world alone. */
  lemma SubmissionLeads(j: Judge, w: World, key: ReqKey)
    ensures var t, rs := Next(j, w, Whole(Submit(key))), At(w.requests, key.stage);
      if 1 <= key.attempt <= |rs| && rs[key.attempt - 1].Queued?
      then t == w.(requests := w.requests[key.stage := rs[key.attempt - 1 := Submitted(rs[key.attempt - 1].jev)]])
      else t == w
  {
    NoWrites(j, w);
    if Exists(w.requests, key) { Single(j, w, Mark(key, Submitted(Get(w.requests, key).jev))); }
    hide PerformAll;
  }

  /** JEV takes the newest request of a running capability stage, if it is queued and JEV never had one of them. */
  lemma JevLeads(j: Judge, w: World)
    ensures var t, rs := Next(j, w, Whole(TakeJev)), At(w.requests, CapabilityStage);
      if w.item.stage == CapabilityStage && w.item.status == Running && rs != [] && rs[|rs| - 1].Queued? && forall r :: r in rs ==> !r.jev
      then t == w.(requests := w.requests[CapabilityStage := rs[|rs| - 1 := Submitted(true)]])
      else t == w
  {
    var rs := At(w.requests, CapabilityStage);
    NoWrites(j, w);
    Single(j, w, Mark(ReqKey(CapabilityStage, |rs|), Submitted(true)));
    assert (forall r :: r in rs ==> !r.jev) <==> NoJev(rs);
    hide PerformAll;
  }
}

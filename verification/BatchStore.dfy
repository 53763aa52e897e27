/** The item functions of taxonomy_batch.py as methods that write one statement after another. */
module BatchStore {
  import opened Prelude
  import opened Assignments
  import opened Acceptance
  import opened BatchItems
  import BW = BatchWrites

  lemma FinalizeCases(j: Judge, w: World, error: bool)
    ensures Finalize(j, w, error) ==
      if LeafOf(j, w.item).None? || !ItemEligible(j, w.item) then CompleteWithoutLeaf(w, NeedsReview)
      else
        var run := if w.item.run.Some? then w.item.run.value else |w.runs|;
        var status := if error then Partial else Succeeded;
        (if w.item.run.Some? then [] else [InsertRun(Partial), SetRun(run)])
        + RowWrites(j.catalog, Decided(j, w.item, run), ManualLock(w.rows, j.catalog), run)
        + [SetRunStatus(run, status), Finish(status, run)]
  {
  }

  class TaxonomyItem {
    const j: Judge
    var item: Item
    var requests: Requests
    var rows: Rows
    var runs: seq<ItemStatus>
    var stored: Option<Profile>

    function View(): World
      reads this
    {
      World(item, requests, rows, runs, stored)
    }

    constructor (j: Judge, item: Item)
      ensures this.j == j && View() == World(item, map[], map[], [], None)
    {
      this.j, this.item := j, item;
      requests, rows, runs, stored := map[], map[], [], None;
    }

    /** One statement. */
    method Execute(write: Write)
      modifies this
      ensures View() == Perform(j, old(View()), write)
    {
      match write {
        case Close(key, outcome) => UpdateRequest(key, outcome);
        case Mark(key, req) => UpdateRequest(key, req);
        case InsertRequest(stage) => requests := requests[stage := At(requests, stage) + [Queued(false)]];
        case StoreProfile(p) => stored := Some(p);
        case InsertRun(status) => runs := runs + [status];
        case SetRunStatus(run, status) => if run < |runs| { runs := runs[run := status]; }
        case WriteRow(w) => rows := ApplyRow(rows, j.catalog, w);
        case _ => item := ItemAfter(item, write);
      }
    }

    method UpdateRequest(key: ReqKey, req: Req)
      modifies this`requests
      ensures requests == if Exists(old(requests), key)
                          then old(requests)[key.stage := At(old(requests), key.stage)[key.attempt - 1 := req]] else old(requests)
    {
      if Exists(requests, key) { requests := requests[key.stage := At(requests, key.stage)[key.attempt - 1 := req]]; }
    }

    method ExecuteAll(ws: seq<Write>)
      modifies this
      ensures View() == PerformAll(j, old(View()), ws)
    {
      ghost var start := View();
      BW.NoWrites(j, start);
      for i := 0 to |ws|
        invariant View() == PerformAll(j, start, ws[..i])
      {
        assert ws[..i + 1] == ws[..i] + [ws[i]];
        BW.Appended(j, start, ws[..i], [ws[i]]);
        BW.Single(j, View(), ws[i]);
        Execute(ws[i]);
      }
      assert ws[..|ws|] == ws;
    }

    method Enqueue(stage: Stage)
      modifies this
      ensures View() == PerformAll(j, old(View()), EnqueueStage(old(View()), stage))
    {
      ghost var start := View();
      if HasLiveRequest(requests, stage) {
        Execute(EnterStage(stage));
        BW.Single(j, start, EnterStage(stage));
      } else {
        Execute(InsertRequest(stage));
        Execute(EnterStage(stage));
        BW.PairOfWrites(j, start, InsertRequest(stage), EnterStage(stage));
      }
    }

    method CompleteWithoutLeafNow(status: ItemStatus)
      modifies this
      ensures View() == PerformAll(j, old(View()), CompleteWithoutLeaf(old(View()), status))
    {
      ghost var start := View();
      if item.run.Some? {
        BW.Single(j, start, Finish(status, item.run.value));
        Execute(Finish(status, item.run.value));
      } else {
        var run := |runs|;
        var first := if status.NeedsReview? then Partial else status;
        BW.PairOfWrites(j, start, InsertRun(first), Finish(status, run));
        Execute(InsertRun(first));
        Execute(Finish(status, run));
      }
    }

    method FinalizeClassification(capabilityError: bool)
      modifies this
      ensures View() == PerformAll(j, old(View()), Finalize(j, old(View()), capabilityError))
    {
      hide RowWrites, Eligible, PerformAll, LeafOf, Decided, ManualLock, Finalize;
      ghost var start := View();
      FinalizeCases(j, start, capabilityError);
      var leaf := LeafOf(j, item);
      if leaf.None? || !ItemEligible(j, item) {
        CompleteWithoutLeafNow(NeedsReview);
        return;
      }
      var recorded, run := item.run.Some?, if item.run.Some? then item.run.value else |runs|;
      var status := if capabilityError then Partial else Succeeded;
      var decision := Decided(j, item, run);
      var locked := LoadVerifiedManualPrimary(rows, j.catalog);
      var opening := if recorded then [] else [InsertRun(Partial), SetRun(run)];
      ExecuteAll(opening);
      ExecuteAll(RowWrites(j.catalog, decision, locked, run));
      BW.Appended(j, start, opening, RowWrites(j.catalog, decision, locked, run));
      ExecuteAll([SetRunStatus(run, status), Finish(status, run)]);
      BW.Appended(j, start, opening + RowWrites(j.catalog, decision, locked, run), [SetRunStatus(run, status), Finish(status, run)]);
    }

    /** A retry is scheduled only for a fault worth retrying, with an attempt left, at the item's own stage. */
    method ScheduleModelRetry(stage: Stage, attempt: nat, retryable: bool) returns (scheduled: bool)
      modifies this`item
      ensures scheduled <==> retryable && attempt < j.maxAttempts && old(item).stage == stage
      ensures scheduled ==> item.status.Pending? && item.retry.ModelRetry? && item.retryAttempt == attempt
      ensures item == if scheduled then old(item).(status := Pending, retry := ModelRetry, retryAttempt := attempt) else old(item)
    {
      if !retryable { return false; }
      if attempt >= j.maxAttempts { return false; }
      scheduled := item.stage == stage;
      if scheduled { item := item.(status := Pending, retry := ModelRetry, retryAttempt := attempt); }
    }

    /** The branches of _handle_stage_failure, for a request of the item's own stage. */
    method HandleStageFailure(key: ReqKey, jev: bool, retryable: bool)
      requires item.stage == key.stage
      modifies this
      ensures View() == PerformAll(j, old(View()), Make(j, old(View()), AfterFailure(j, key, jev, retryable)))
    {
      hide Finalize, CompleteWithoutLeaf, EnqueueStage, PerformAll;
      if key.stage.CapabilityStage? && jev {
        Enqueue(CapabilityStage);
        return;
      }
      BW.Single(j, View(), ScheduleRetry(key.stage, key.attempt));
      var scheduled := ScheduleModelRetry(key.stage, key.attempt, retryable);
      if scheduled { return; }
      if !retryable {
        if key.stage.CapabilityStage? { FinalizeClassification(true); } else { CompleteWithoutLeafNow(NeedsReview); }
      } else if key.stage.L1? {
        Enqueue(L1Escalation);
      } else if key.stage.LeafStage? {
        Enqueue(LeafEscalation);
      } else if key.stage.CapabilityStage? {
        FinalizeClassification(true);
      } else {
        CompleteWithoutLeafNow(NeedsReview);
      }
    }

    /** What a success stores: one statement, or two for a profile. */
    method StoreSuccess(stage: Stage, output: Output)
      modifies this
      ensures View() == PerformAll(j, old(View()), Stores(j, old(View()), stage, output))
    {
      ghost var start := View();
      BW.NoWrites(j, start);
      match stage {
        case ProfileStage =>
          var p := j.build(output, item.source);
          Execute(StoreProfile(p));
          Execute(SetProfile(p));
          BW.PairOfWrites(j, start, StoreProfile(p), SetProfile(p));
        case L1 => Execute(SetL1(output)); BW.Single(j, start, SetL1(output));
        case L1Escalation => Execute(SetL1(output)); BW.Single(j, start, SetL1(output));
        case LeafStage => Execute(SetLeaf(output)); BW.Single(j, start, SetLeaf(output));
        case LeafEscalation => Execute(SetLeaf(output)); BW.Single(j, start, SetLeaf(output));
        case CapabilityStage => Execute(SetCapability(output)); BW.Single(j, start, SetCapability(output));
        case Complete =>
      }
    }

    /** _prepare_capability_or_finalize. */
    method PrepareCapability()
      modifies this
      ensures View() == PerformAll(j, old(View()), Make(j, old(View()), AfterDecision(j, old(item))))
    {
      hide Finalize, EnqueueStage, PerformAll;
      if !j.capabilitiesEnabled { FinalizeClassification(false); return; }
      if !ProfileOf(item).capabilities { FinalizeClassification(false); return; }
      if !j.candidates(ProfileOf(item), HitsOf(j, item), item.leaf) { FinalizeClassification(false); return; }
      Enqueue(CapabilityStage);
    }

    /** The branches that follow a stored success. */
    method FollowSuccess(stage: Stage)
      modifies this
      ensures View() == PerformAll(j, old(View()), Make(j, old(View()), AfterSuccess(j, old(item), stage)))
    {
      hide Finalize, CompleteWithoutLeaf, EnqueueStage, PerformAll, ShouldEscalateL1, ShouldEscalateLeaf, Eligible, AfterDecision;
      var hits, profile := HitsOf(j, item), ProfileOf(item);
      if stage.ProfileStage? {
        if profile.accepted && profile.eligibleKind && profile.signal {
          Enqueue(L1);
        } else {
          CompleteWithoutLeafNow(if profile.accepted then Skipped else Partial);
        }
      } else if stage.L1? || stage.L1Escalation? {
        if stage.L1? && ShouldEscalateL1(hits, j.gate.minGap) {
          Enqueue(L1Escalation);
        } else if hits == [] {
          CompleteWithoutLeafNow(NeedsReview);
        } else {
          Enqueue(LeafStage);
        }
      } else if stage.LeafStage? || stage.LeafEscalation? {
        var decision := LeafOf(j, item);
        var eligible := ItemEligible(j, item);
        var escalate := ShouldEscalateLeaf(decision, hits, j.leafMin, j.gate.minGap) || !eligible;
        if stage.LeafStage? && escalate {
          Enqueue(LeafEscalation);
        } else if decision.None? {
          CompleteWithoutLeafNow(NeedsReview);
        } else if !eligible {
          CompleteWithoutLeafNow(NeedsReview);
        } else {
          PrepareCapability();
        }
      } else {
        FinalizeClassification(false);
      }
    }

    /** The result of a request: recorded, stored, and followed by the item's next move. */
    method ApplyRequestResult(key: ReqKey, result: Result) returns (applied: bool)
      modifies this
      ensures View() == PerformAll(j, old(View()), ApplyResult(j, old(View()), key, result))
      ensures applied <==> Applies(old(View()), key)
    {
      hide Make, Stores, AfterSuccess, AfterFailure, PerformAll;
      ghost var start := View();
      BW.NoWrites(j, start);
      if !Exists(requests, key) { return false; }
      if key.attempt < |At(requests, key.stage)| { return false; }
      if item.stage != key.stage || Terminal(item.status) { return false; }
      var jev := Get(requests, key).jev;
      var close := Close(key, Outcome(View(), key, result));
      BW.Single(j, start, close);
      Execute(close);
      match result {
        case Failure(retryable) =>
          ghost var closed := View();
          HandleStageFailure(key, jev, retryable);
          BW.Appended(j, start, [close], Make(j, closed, AfterFailure(j, key, jev, retryable)));
        case Success(output) =>
          ghost var closed := View();
          ghost var stores := Stores(j, View(), key.stage, output);
          StoreSuccess(key.stage, output);
          ghost var stored := View();
          BW.Appended(j, start, [close], stores);
          FollowSuccess(key.stage);
          BW.Appended(j, start, [close] + stores, Make(j, stored, AfterSuccess(j, stored.item, key.stage)));
      }
      return true;
    }

    /** resume_due_model_retries, on this item. */
    method ResumeModelRetry() returns (resumed: bool)
      modifies this
      ensures View() == PerformAll(j, old(View()), ResumeRetry(old(View())))
      ensures resumed <==> old(item).status.Pending? && old(item).retry.ModelRetry? && !old(item).stage.Complete?
    {
      BW.NoWrites(j, View());
      resumed := item.status.Pending? && item.retry.ModelRetry? && !item.stage.Complete?;
      if resumed { Enqueue(item.stage); }
    }

    /** try_recover_source_with_upstream_evidence, with the profile built from the quotes. */
    method RecoverWithUpstream(p: Profile)
      modifies this
      ensures View() == PerformAll(j, old(View()), RecoverUpstream(old(View()), p))
    {
      ghost var start := View();
      var recover := [StoreProfile(p), Recover(p)];
      ExecuteAll(recover);
      BW.PairOfWrites(j, start, StoreProfile(p), Recover(p));
      assert EnqueueStage(View(), L1) == EnqueueStage(start, L1);
      BW.Appended(j, start, recover, EnqueueStage(start, L1));
      Enqueue(L1);
    }

    /** schedule_source_retry: true while the item goes on. */
    method ScheduleSourceRetry(fault: Fault) returns (scheduled: bool)
      modifies this
      ensures View() == PerformAll(j, old(View()), FailCapture(j, old(View()), fault))
      ensures scheduled <==> !Exhausts(j, old(item), fault) || fault.upstream.Some?
    {
      ghost var start := View();
      var limit := Min(j.maxAttempts, Max(1, fault.limit));
      var failed := item.retryAttempt + 1;
      if !fault.retryable || failed >= limit {
        if fault.upstream.Some? {
          RecoverWithUpstream(fault.upstream.value);
          return true;
        }
        BW.Single(j, start, CountSource(failed));
        Execute(CountSource(failed));
        BW.Appended(j, start, [CountSource(failed)], CompleteWithoutLeaf(start, NeedsReview));
        CompleteWithoutLeafNow(NeedsReview);
        return false;
      }
      BW.Single(j, start, ScheduleSource(failed));
      Execute(ScheduleSource(failed));
      return true;
    }

    /** The homepage was captured. */
    method StoreCapture(source: Text)
      modifies this
      ensures View() == PerformAll(j, old(View()), CaptureSource(old(View()), source))
    {
      ghost var start := View();
      BW.Single(j, start, SetSource(source));
      Execute(SetSource(source));
      assert EnqueueStage(View(), ProfileStage) == EnqueueStage(start, ProfileStage);
      BW.Appended(j, start, [SetSource(source)], EnqueueStage(start, ProfileStage));
      Enqueue(ProfileStage);
    }

    /** A stored profile is reused. */
    method ReuseProfile(p: Profile)
      modifies this
      ensures View() == PerformAll(j, old(View()), PassWrites(j, old(View()), Reuses(p)))
    {
      ghost var start := View();
      BW.Single(j, start, SetProfile(p));
      Execute(SetProfile(p));
      assert EnqueueStage(View(), L1) == EnqueueStage(start, L1);
      BW.Appended(j, start, [SetProfile(p)], EnqueueStage(start, L1));
      Enqueue(L1);
    }

    /** reconcile_recorded_results, on this item. */
    method ReconcileRecordedResult() returns (reconciled: bool)
      modifies this
      ensures View() == PerformAll(j, old(View()), BatchItems.Reconcile(j, old(View())))
    {
      BW.NoWrites(j, View());
      if !Recorded(View()) { return false; }
      var key := RecordedKey(View());
      reconciled := ApplyRequestResult(key, RecordedResult(Get(requests, key)));
    }
  }
}

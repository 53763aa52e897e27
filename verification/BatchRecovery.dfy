/**
 A crash between any two writes of a recorded result is repaired by applying the recorded result
 again: the item, its requests and its assignments end as if there had been no crash.
 */
module BatchRecovery {
  import opened Prelude
  import opened Assignments
  import opened Acceptance
  import opened BatchItems
  import opened BatchWrites
  import opened BatchShape
  import opened BatchEvents
  import opened BatchRows

  // ---------- the statements of a finalisation are the finalisation ----------

  lemma {:induction false} InsertAllUpserts(j: Judge, w: World, chosen: seq<Chosen>, run: RunId)
    ensures PerformAll(j, w, InsertAll(chosen, run)).rows == UpsertAll(w.rows, j.catalog, chosen, Some(run), NOW)
    decreases |chosen|
  {
    if chosen != [] {
      var before, last := chosen[..|chosen| - 1], chosen[|chosen| - 1];
      var write := WriteRow(InsertRow(last.term, Row(Some(run), false, last.confidence, Provisional, Auto, NOW)));
      InsertAllUpserts(j, w, before, run);
      assert InsertAll(chosen, run) == InsertAll(before, run) + [write];
      Appended(j, w, InsertAll(before, run), [write]);
      Single(j, PerformAll(j, w, InsertAll(before, run)), write);
    } else {
      assert InsertAll(chosen, run) == [];
    }
  }

  /** Performed in full, they are the finalisation of the assignment table. */
  lemma RowWritesFinalise(j: Judge, w: World, d: Decision, locked: bool, run: RunId)
    requires d.run == Some(run)
    ensures PerformAll(j, w, RowWrites(j.catalog, d, locked, run)).rows == Finalised(w.rows, j.catalog, d, locked, NOW)
  {
    var demote := if locked then [] else [WriteRow(DemoteOthers(d.primary.term))];
    var primary := [WriteRow(InsertRow(d.primary.term, PrimaryRow(d, locked, NOW)))];
    var retire := [WriteRow(Retire(Dimensions(d, j.catalog), run))];
    var a := PerformAll(j, w, demote);
    var b := PerformAll(j, a, primary);
    var c := PerformAll(j, b, InsertAll(d.secondary, run));
    var e := PerformAll(j, c, InsertAll(d.capabilities, run));
    if locked { NoWrites(j, w); } else { Single(j, w, demote[0]); }
    Single(j, a, primary[0]);
    assert b.rows == Upsert(w.rows, j.catalog, d.primary.term, PrimaryRow(d, locked, NOW));
    Single(j, e, retire[0]);
    hide PerformAll, InsertAll, Perform, Upsert, UpsertAll;
    InsertAllUpserts(j, b, d.secondary, run);
    InsertAllUpserts(j, c, d.capabilities, run);
    Appended(j, w, demote, primary);
    Appended(j, w, demote + primary, InsertAll(d.secondary, run));
    Appended(j, w, demote + primary + InsertAll(d.secondary, run), InsertAll(d.capabilities, run));
    Appended(j, w, demote + primary + InsertAll(d.secondary, run) + InsertAll(d.capabilities, run), retire);
    assert PerformAll(j, e, retire).rows == SupersedeAuto(e.rows, Dimensions(d, j.catalog), Some(run), NOW) by { RetiresRows(j, e, retire, d, run); }
  }

  lemma RetiresRows(j: Judge, w: World, retire: seq<Write>, d: Decision, run: RunId)
    requires retire == [WriteRow(Retire(Dimensions(d, j.catalog), run))]
    ensures PerformAll(j, w, retire).rows == SupersedeAuto(w.rows, Dimensions(d, j.catalog), Some(run), NOW)
  {
    Single(j, w, retire[0]);
  }

  // ---------- moves, repeated ----------

  /** Nothing but rows change. */
  lemma {:induction false} RowsOnly(j: Judge, w: World, ws: seq<Write>)
    requires forall i :: 0 <= i < |ws| ==> ws[i].WriteRow?
    ensures PerformAll(j, w, ws) == w.(rows := PerformAll(j, w, ws).rows)
    decreases |ws|
  {
    if ws != [] {
      assert ws[0].WriteRow?;
      assert forall i :: 0 <= i < |ws[1..]| ==> ws[1..][i] == ws[i + 1];
      hide ApplyRow;
      RowsOnly(j, Perform(j, w, ws[0]), ws[1..]);
    }
  }

  /** The world with one more run that nothing refers to. */
  function Spare(w: World, status: ItemStatus): World { w.(runs := w.runs + [status]) }

  /** A finalisation whose run is recorded: its statements, then its end. */
  ghost function Closing(j: Judge, w: World, run: RunId, status: ItemStatus): seq<Write>
    requires LeafOf(j, w.item).Some?
  {
    RowWrites(j.catalog, Decided(j, w.item, run), ManualLock(w.rows, j.catalog), run) + [SetRunStatus(run, status), Finish(status, run)]
  }

  /** Cut among the row statements. */
  lemma RowsCutRepaired(j: Judge, w: World, run: RunId, status: ItemStatus, m: nat)
    requires LeafOf(j, w.item).Some? && w.item.run == Some(run)
    requires var d := Decided(j, w.item, run); m <= |RowWrites(j.catalog, d, ManualLock(w.rows, j.catalog), run)|
    ensures var c := PerformAll(j, w, Closing(j, w, run, status)[..m]);
      && c == w.(rows := c.rows)
      && PerformAll(j, c, Closing(j, c, run, status)) == PerformAll(j, w, Closing(j, w, run, status))
  {
    var d, locked := Decided(j, w.item, run), ManualLock(w.rows, j.catalog);
    var ws, last := RowWrites(j.catalog, d, locked, run), [SetRunStatus(run, status), Finish(status, run)];
    RowWritesAreRows(j.catalog, d, locked, run);
    RowsRedo(j, w, d, run, m);
    LockKept(j, w, d, run, m);
    assert (ws + last)[..m] == ws[..m];
    RowsOnly(j, w, ws[..m]);
    var c := PerformAll(j, w, ws[..m]);
    RowsOnly(j, c, ws);
    RowsOnly(j, w, ws);
    hide RowWrites, PerformAll, ManualLock, Decided, LeafOf;
    Appended(j, w, ws, last);
    Appended(j, c, ws, last);
  }

  /** Cut after the run's status was set. */
  lemma StatusCutRepaired(j: Judge, w: World, run: RunId, status: ItemStatus)
    requires LeafOf(j, w.item).Some? && w.item.run == Some(run)
    ensures var ws := Closing(j, w, run, status); var c := PerformAll(j, w, ws[..|ws| - 1]);
      && c.item == w.item && c.requests == w.requests && c.stored == w.stored
      && PerformAll(j, c, Closing(j, c, run, status)) == PerformAll(j, w, ws)
  {
    var d, locked := Decided(j, w.item, run), ManualLock(w.rows, j.catalog);
    var rows := RowWrites(j.catalog, d, locked, run);
    var set_, end := [SetRunStatus(run, status)], [Finish(status, run)];
    assert Closing(j, w, run, status)[..|rows| + 1] == rows + set_;
    assert rows[..|rows|] == rows;
    assert rows + [SetRunStatus(run, status), Finish(status, run)] == rows + set_ + end;
    RowWritesAreRows(j.catalog, d, locked, run);
    RowsRedo(j, w, d, run, |rows|);
    LockKept(j, w, d, run, |rows|);
    var done := PerformAll(j, w, rows);
    RowsOnly(j, w, rows);
    RowsOnly(j, done, rows);
    var c := Perform(j, done, SetRunStatus(run, status));
    RowsOnly(j, c, rows);
    RowsIgnoreRuns(j, done, c, rows);
    hide RowWrites, PerformAll, ManualLock, Decided, LeafOf;
    Appended(j, w, rows, set_);
    Appended(j, w, rows + set_, end);
    Single(j, done, SetRunStatus(run, status));
    Appended(j, c, rows, set_ + end);
    assert set_ + end == [SetRunStatus(run, status), Finish(status, run)];
    PairOfWrites(j, PerformAll(j, c, rows), SetRunStatus(run, status), Finish(status, run));
    Single(j, c, Finish(status, run));
    assert PerformAll(j, c, rows) == c;
  }

  /** Row statements read nothing but rows. */
  lemma {:induction false} RowsIgnoreRuns(j: Judge, a: World, b: World, ws: seq<Write>)
    requires a.rows == b.rows && forall i :: 0 <= i < |ws| ==> ws[i].WriteRow?
    ensures PerformAll(j, a, ws).rows == PerformAll(j, b, ws).rows
    decreases |ws|
  {
    if ws != [] {
      assert ws[0].WriteRow?;
      assert forall i :: 0 <= i < |ws[1..]| ==> ws[1..][i] == ws[i + 1];
      hide ApplyRow;
      RowsIgnoreRuns(j, Perform(j, a, ws[0]), Perform(j, b, ws[0]), ws[1..]);
    }
  }

  /** The item still stands where it stood, perhaps with a run recorded. */
  predicate Unmoved(s: World, c: World) {
    && c.item == s.item.(run := c.item.run) && c.stored == s.stored
    && At(c.requests, s.item.stage) == At(s.requests, s.item.stage)
  }

  /** Making the move again comes to the same end, up to one unused run. */
  ghost predicate Remade(j: Judge, s: World, c: World, move: Move) {
    var t := PerformAll(j, c, Make(j, c, move));
    || t == PerformAll(j, s, Make(j, s, move))
    || exists status :: t == PerformAll(j, Spare(s, status), Make(j, Spare(s, status), move))
  }

  lemma CompletionRepaired(j: Judge, s: World, status: ItemStatus, m: nat)
    requires 0 < m < |CompleteWithoutLeaf(s, status)|
    ensures var c := PerformAll(j, s, CompleteWithoutLeaf(s, status)[..m]);
      Unmoved(s, c) && Remade(j, s, c, EndWithoutLeaf(status))
  {
    var run := InsertRun(if status.NeedsReview? then Partial else status);
    assert CompleteWithoutLeaf(s, status)[..m] == [run];
    Single(j, s, run);
    var c := Perform(j, s, run);
    assert c == Spare(s, run.status);
    assert PerformAll(j, c, Make(j, c, EndWithoutLeaf(status)))
        == PerformAll(j, Spare(s, run.status), Make(j, Spare(s, run.status), EndWithoutLeaf(status)));
  }

  /** A finalisation of an eligible item, from its recorded run on. */
  lemma ClosingIs(j: Judge, w: World, run: RunId, status: ItemStatus)
    requires LeafOf(j, w.item).Some?
    ensures |Closing(j, w, run, status)| == |RowWrites(j.catalog, Decided(j, w.item, run), ManualLock(w.rows, j.catalog), run)| + 2
  {
    hide RowWrites, ManualLock, Decided, LeafOf;
  }

  lemma ClosingRepaired(j: Judge, t: World, error: bool, run: RunId, m: nat)
    requires LeafOf(j, t.item).Some? && ItemEligible(j, t.item) && t.item.run == Some(run)
    requires m < |Closing(j, t, run, if error then Partial else Succeeded)|
    ensures var status := if error then Partial else Succeeded; var ws := Closing(j, t, run, status);
      var c := PerformAll(j, t, ws[..m]);
      && c.item == t.item && c.requests == t.requests && c.stored == t.stored
      && PerformAll(j, c, Finalize(j, c, error)) == PerformAll(j, t, ws)
  {
    hide RowWrites, PerformAll, ManualLock, Decided, LeafOf, ItemEligible, Finalize, Closing;
    var status := if error then Partial else Succeeded;
    var ws := Closing(j, t, run, status);
    var c := PerformAll(j, t, ws[..m]);
    ClosingIs(j, t, run, status);
    if m <= |RowWrites(j.catalog, Decided(j, t.item, run), ManualLock(t.rows, j.catalog), run)| {
      RowsCutRepaired(j, t, run, status, m);
    } else {
      StatusCutRepaired(j, t, run, status);
    }
    RecordedFinalize(j, c, error, run);
  }

  lemma RecordedFinalize(j: Judge, t: World, error: bool, run: RunId)
    requires LeafOf(j, t.item).Some? && ItemEligible(j, t.item) && t.item.run == Some(run)
    ensures Finalize(j, t, error) == Closing(j, t, run, if error then Partial else Succeeded)
  {
    hide RowWrites, ManualLock, Decided, LeafOf, ItemEligible;
  }

  lemma UnrecordedFinalize(j: Judge, s: World, error: bool)
    requires LeafOf(j, s.item).Some? && ItemEligible(j, s.item) && s.item.run.None?
    ensures var run := |s.runs|; var pre := [InsertRun(Partial), SetRun(run)]; var t := PerformAll(j, s, pre);
      && t == s.(runs := s.runs + [Partial], item := s.item.(run := Some(run)))
      && LeafOf(j, t.item) == LeafOf(j, s.item) && ItemEligible(j, t.item)
      && Finalize(j, s, error) == pre + Closing(j, t, run, if error then Partial else Succeeded)
  {
    PairOfWrites(j, s, InsertRun(Partial), SetRun(|s.runs|));
    hide RowWrites, ManualLock;
  }

  lemma FinalisationRepaired(j: Judge, s: World, error: bool, m: nat)
    requires 0 < m < |Finalize(j, s, error)|
    ensures var c := PerformAll(j, s, Finalize(j, s, error)[..m]);
      Unmoved(s, c) && Remade(j, s, c, Classify(error))
  {
    var ws := Finalize(j, s, error);
    if LeafOf(j, s.item).None? || !ItemEligible(j, s.item) {
      CompletionRepaired(j, s, NeedsReview, m);
      LeaflessFinalize(j, s, error, m);
    } else if s.item.run.Some? {
      RecordedFinalize(j, s, error, s.item.run.value);
      ClosingRepaired(j, s, error, s.item.run.value, m);
    } else if m == 1 {
      UnusedRunRepaired(j, s, error);
    } else {
      NewRunRepaired(j, s, error, m);
    }
  }

  /** Cut right after the run was inserted: that run stays unused. */
  lemma UnusedRunRepaired(j: Judge, s: World, error: bool)
    requires LeafOf(j, s.item).Some? && ItemEligible(j, s.item) && s.item.run.None?
    ensures |Finalize(j, s, error)| > 1
    ensures var c := PerformAll(j, s, Finalize(j, s, error)[..1]); Unmoved(s, c) && Remade(j, s, c, Classify(error))
  {
    UnrecordedFinalize(j, s, error);
    assert Finalize(j, s, error)[..1] == [InsertRun(Partial)];
    Single(j, s, InsertRun(Partial));
    var c := Perform(j, s, InsertRun(Partial));
    assert c == Spare(s, Partial);
    hide Finalize, PerformAll;
    assert PerformAll(j, c, Make(j, c, Classify(error))) == PerformAll(j, Spare(s, Partial), Make(j, Spare(s, Partial), Classify(error)));
  }

  /** Cut after the new run was recorded on the item. */
  lemma NewRunRepaired(j: Judge, s: World, error: bool, m: nat)
    requires LeafOf(j, s.item).Some? && ItemEligible(j, s.item) && s.item.run.None? && 1 < m < |Finalize(j, s, error)|
    ensures var c := PerformAll(j, s, Finalize(j, s, error)[..m]);
      && c.item == s.item.(run := Some(|s.runs|)) && c.requests == s.requests && c.stored == s.stored
      && PerformAll(j, c, Finalize(j, c, error)) == PerformAll(j, s, Finalize(j, s, error))
  {
    hide Finalize, Closing, LeafOf, ItemEligible, PerformAll, Perform;
    var run, pre := |s.runs|, [InsertRun(Partial), SetRun(|s.runs|)];
    UnrecordedFinalize(j, s, error);
    var t := PerformAll(j, s, pre);
    var closing := Closing(j, t, run, if error then Partial else Succeeded);
    TakeAfter(pre, closing, m);
    Appended(j, s, pre, closing[..m - 2]);
    Appended(j, s, pre, closing);
    ClosingRepaired(j, t, error, run, m - 2);
  }

  lemma TakeAfter(a: seq<Write>, b: seq<Write>, m: nat)
    requires |a| <= m <= |a| + |b|
    ensures (a + b)[..m] == a + b[..m - |a|]
  {
  }

  /** Without an eligible leaf a finalisation is a completion, and stays one. */
  lemma LeaflessFinalize(j: Judge, s: World, error: bool, m: nat)
    requires LeafOf(j, s.item).None? || !ItemEligible(j, s.item)
    requires 0 < m < |CompleteWithoutLeaf(s, NeedsReview)|
    requires var c := PerformAll(j, s, CompleteWithoutLeaf(s, NeedsReview)[..m]);
      Unmoved(s, c) && Remade(j, s, c, EndWithoutLeaf(NeedsReview))
    ensures var c := PerformAll(j, s, CompleteWithoutLeaf(s, NeedsReview)[..m]);
      Remade(j, s, c, Classify(error))
  {
    var c := PerformAll(j, s, CompleteWithoutLeaf(s, NeedsReview)[..m]);
    assert Make(j, s, Classify(error)) == Make(j, s, EndWithoutLeaf(NeedsReview));
    assert Make(j, c, Classify(error)) == Make(j, c, EndWithoutLeaf(NeedsReview));
    forall status ensures Make(j, Spare(s, status), Classify(error)) == Make(j, Spare(s, status), EndWithoutLeaf(NeedsReview)) {}
    hide PerformAll, Make, Unmoved;
    if PerformAll(j, c, Make(j, c, EndWithoutLeaf(NeedsReview))) != PerformAll(j, s, Make(j, s, EndWithoutLeaf(NeedsReview))) {
      var status :| PerformAll(j, c, Make(j, c, EndWithoutLeaf(NeedsReview)))
                 == PerformAll(j, Spare(s, status), Make(j, Spare(s, status), EndWithoutLeaf(NeedsReview)));
      assert PerformAll(j, c, Make(j, c, Classify(error))) == PerformAll(j, Spare(s, status), Make(j, Spare(s, status), Classify(error)));
    }
  }

  // ---------- the repair of a whole result ----------

  /** A result is recorded and the item has not moved yet: what the crash may have left of apply_request_result. */
  ghost predicate Interrupted(j: Judge, v: World, key: ReqKey, result: Result) {
    && v.item.status.Running? && v.item.retry.NoRetry? && v.item.retryAttempt == 0
    && v.item.stage == key.stage && !key.stage.Complete?
    && Recorded(v) && RecordedKey(v) == key && RecordedResult(Get(v.requests, key)) == result
    && forall i :: 0 <= i < key.attempt - 1 ==> At(v.requests, key.stage)[i].Broken?
  }

  /** The writes that follow the recording of the result. */
  ghost function Rest(j: Judge, v: World, key: ReqKey, result: Result): seq<Write>
    requires Exists(v.requests, key)
  {
    StoresKeepRequests(j, v, key, result);
    StoresFor(j, v, key, result) + Make(j, StoredFor(j, v, key, result), MoveFor(j, StoredFor(j, v, key, result), key, result))
  }

  lemma StoresKeepRequests(j: Judge, v: World, key: ReqKey, result: Result)
    ensures var t := StoredFor(j, v, key, result);
      t.requests == v.requests && t.rows == v.rows && t.runs == v.runs
      && t.item.stage == v.item.stage && t.item.status == v.item.status && t.item.retry == v.item.retry
      && t.item.run == v.item.run && t.item.retryAttempt == v.item.retryAttempt
  {
    if result.Success? {
      StoringStays(j, v, key.stage, result.output);
      StoringKeepsCount(j, v, key.stage, result.output);
    }
  }

  lemma StoringKeepsCount(j: Judge, w: World, stage: Stage, output: Output)
    ensures PerformAll(j, w, Stores(j, w, stage, output)).item.retryAttempt == w.item.retryAttempt
  {
    if stage.ProfileStage? {
      var p := j.build(output, w.item.source);
      PairOfWrites(j, w, StoreProfile(p), SetProfile(p));
    } else if Stores(j, w, stage, output) != [] {
      Single(j, w, Stores(j, w, stage, output)[0]);
    }
  }

  /** Recording the recorded result again changes nothing. */
  lemma RecordingAgainIsIdle(j: Judge, c: World, key: ReqKey)
    requires Exists(c.requests, key)
    ensures Perform(j, c, Close(key, Get(c.requests, key))) == c
  {
    var rs := At(c.requests, key.stage);
    assert rs[key.attempt - 1 := rs[key.attempt - 1]] == rs;
    assert c.requests[key.stage := rs] == c.requests;
  }

  /** Reconciling an interrupted item performs the rest. */
  lemma ReconcilingPerformsTheRest(j: Judge, c: World, key: ReqKey, result: Result)
    requires Recorded(c) && RecordedKey(c) == key && RecordedResult(Get(c.requests, key)) == result
    ensures PerformAll(j, c, Reconcile(j, c)) == PerformAll(j, c, Rest(j, c, key, result))
  {
    var close := Close(key, Get(c.requests, key));
    assert Outcome(c, key, result) == Get(c.requests, key);
    RecordingAgainIsIdle(j, c, key);
    Single(j, c, close);
    StoresKeepRequests(j, c, key, result);
    NoWrites(j, c);
    hide Make, Stores, PerformAll, Perform, AfterSuccess, AfterFailure;
    var rest := Rest(j, c, key, result);
    assert Reconcile(j, c) == [close] + rest by { ReconcileIs(j, c, key, result); }
    Appended(j, c, [close], rest);
  }

  lemma ReconcileIs(j: Judge, c: World, key: ReqKey, result: Result)
    requires Recorded(c) && RecordedKey(c) == key && RecordedResult(Get(c.requests, key)) == result
    ensures Reconcile(j, c) == [Close(key, Get(c.requests, key))] + Rest(j, c, key, result)
  {
    RecordingAgainIsIdle(j, c, key);
    assert Outcome(c, key, result) == Get(c.requests, key);
    NoWrites(j, c);
    hide Make, Stores, AfterSuccess, AfterFailure;
  }

  // ---------- cuts among the moves ----------

  /** A move asks a later stage, or the same one once all its requests have failed. */
  ghost predicate MoveFits(s: World, move: Move) {
    match move
    case Ask(stage) =>
      || 0 < Rank(stage) < Rank(s.item.stage)
      || (stage == s.item.stage && !stage.Complete? && forall i :: 0 <= i < |At(s.requests, stage)| ==> At(s.requests, stage)[i].Broken?)
    case RetryLater(stage, _) => stage == s.item.stage
    case EndWithoutLeaf(status) => Terminal(status)
    case Classify(_) => true
  }

  lemma MoveForFits(j: Judge, v: World, key: ReqKey, result: Result)
    requires Interrupted(j, v, key, result)
    ensures MoveFits(v, MoveFor(j, v, key, result))
  {
    hide ShouldEscalateL1, ShouldEscalateLeaf, ItemEligible, LeafOf, HitsOf;
  }

  predicate Idle(item: Item) { item.status.Running? && item.retry.NoRetry? && item.retryAttempt == 0 }

  lemma AskRepaired(j: Judge, s: World, stage: Stage, m: nat)
    requires Idle(s.item) && MoveFits(s, Ask(stage)) && 0 < m < |EnqueueStage(s, stage)|
    ensures var c := PerformAll(j, s, EnqueueStage(s, stage)[..m]);
      || (c == PerformAll(j, s, EnqueueStage(s, stage)) && !Recorded(c))
      || (m == 1 && Unmoved(s, c) && Remade(j, s, c, Ask(stage)))
  {
    var ws := EnqueueStage(s, stage);
    assert ws == [InsertRequest(stage), EnterStage(stage)];
    PairOfWrites(j, s, InsertRequest(stage), EnterStage(stage));
    var c := Perform(j, s, InsertRequest(stage));
    var rs := At(c.requests, stage);
    assert rs == At(s.requests, stage) + [Queued(false)] && rs[|rs| - 1].Open();
    assert ws[..1] == [InsertRequest(stage)];
    Single(j, s, InsertRequest(stage));
    if stage == s.item.stage {
      assert s.item.(stage := stage, status := Running, retry := NoRetry, retryAttempt := 0) == s.item;
    } else {
      assert Blocks(rs[|rs| - 1]);
      assert EnqueueStage(c, stage) == [EnterStage(stage)];
      Single(j, c, EnterStage(stage));
    }
  }

  lemma EndedIsNotRecorded(j: Judge, s: World, ws: seq<Write>)
    requires Ending(ws)
    ensures !Recorded(PerformAll(j, s, ws))
  {
    EndingEnds(j, s, ws);
  }

  lemma MakeRepaired(j: Judge, s: World, move: Move, m: nat)
    requires Idle(s.item) && MoveFits(s, move) && 0 < m < |Make(j, s, move)|
    ensures var c := PerformAll(j, s, Make(j, s, move)[..m]);
      || (c == PerformAll(j, s, Make(j, s, move)) && !Recorded(c))
      || (Unmoved(s, c) && Remade(j, s, c, move))
  {
    match move
    case Ask(stage) => AskRepaired(j, s, stage, m);
    case RetryLater(stage, attempt) =>
    case EndWithoutLeaf(status) => CompletionRepaired(j, s, status, m);
    case Classify(error) => FinalisationRepaired(j, s, error, m);
  }

  // ---------- the theorem ----------

  /** The writes during which a profile result has lost its source text and not yet moved the item. */
  ghost predicate InProfileWindow(j: Judge, v: World, key: ReqKey, result: Result, m: nat)
    requires Exists(v.requests, key)
  {
    key.stage.ProfileStage? && result.Success? && 2 <= m < |Rest(j, v, key, result)|
  }

  /** The text no longer matters to the parser. */
  predicate SourceIrrelevant(j: Judge, v: World, result: Result) {
    result.Success? ==> j.build(result.output, None) == j.build(result.output, v.item.source)
  }

  /** The crash is repaired: as without it, but perhaps for one unused classification run. */
  ghost predicate Repaired(j: Judge, v: World, c: World, key: ReqKey, result: Result)
    requires Exists(v.requests, key)
  {
    var t := PerformAll(j, c, Reconcile(j, c));
    || t == PerformAll(j, v, Rest(j, v, key, result))
    || exists status :: t == PerformAll(j, Spare(v, status), Rest(j, Spare(v, status), key, result))
  }

  /** Storing again what is already stored. */
  lemma StoringAgain(j: Judge, v: World, key: ReqKey, result: Result, m: nat)
    requires Exists(v.requests, key) && m <= |StoresFor(j, v, key, result)|
    requires key.stage.ProfileStage? && result.Success? && m == 2 ==> SourceIrrelevant(j, v, result)
    ensures var c := PerformAll(j, v, StoresFor(j, v, key, result)[..m]);
      && c.requests == v.requests && c.item.status == v.item.status && c.item.stage == v.item.stage
      && StoredFor(j, c, key, result) == StoredFor(j, v, key, result)
  {
    var ws := StoresFor(j, v, key, result);
    NoWrites(j, v);
    if m == 0 {
      assert ws[..0] == [];
    } else if key.stage.ProfileStage? {
      var p := j.build(result.output, v.item.source);
      PairOfWrites(j, v, StoreProfile(p), SetProfile(p));
      if m == 1 {
        assert ws[..1] == [StoreProfile(p)];
        Single(j, v, StoreProfile(p));
        PairOfWrites(j, Perform(j, v, StoreProfile(p)), StoreProfile(p), SetProfile(p));
      } else {
        assert ws[..2] == ws;
        PairOfWrites(j, StoredFor(j, v, key, result), StoreProfile(p), SetProfile(p));
      }
    } else {
      assert ws[..1] == ws && |ws| == 1;
      Single(j, v, ws[0]);
      Single(j, Perform(j, v, ws[0]), ws[0]);
    }
  }

  /** Cut among the stores. */
  lemma StoresCutRepaired(j: Judge, v: World, key: ReqKey, result: Result, m: nat)
    requires Interrupted(j, v, key, result) && m <= |StoresFor(j, v, key, result)|
    requires InProfileWindow(j, v, key, result, m) ==> SourceIrrelevant(j, v, result)
    requires m < |Rest(j, v, key, result)|
    ensures Repaired(j, v, PerformAll(j, v, Rest(j, v, key, result)[..m]), key, result)
  {
    var stores := StoresFor(j, v, key, result);
    var rest := Rest(j, v, key, result);
    assert rest[..m] == stores[..m];
    var c := PerformAll(j, v, stores[..m]);
    StoringAgain(j, v, key, result, m);
    StoresKeepRequests(j, v, key, result);
    StoresKeepRequests(j, c, key, result);
    hide Make, Stores, PerformAll, AfterSuccess, AfterFailure;
    ReconcilingPerformsTheRest(j, c, key, result);
    var stored := StoredFor(j, v, key, result);
    Appended(j, v, stores, Make(j, stored, MoveFor(j, stored, key, result)));
    Appended(j, c, StoresFor(j, c, key, result), Make(j, stored, MoveFor(j, stored, key, result)));
  }

  /** Where the move is interrupted, everything the result stored is in place. */
  lemma StoredStays(j: Judge, v: World, c: World, key: ReqKey, result: Result)
    requires Exists(v.requests, key) && v.item.stage == key.stage && Unmoved(StoredFor(j, v, key, result), c)
    requires key.stage.ProfileStage? ==> SourceIrrelevant(j, v, result)
    requires Exists(StoredFor(j, v, key, result).requests, key)
    ensures StoredFor(j, c, key, result) == c
    ensures Exists(c.requests, key) && MoveFor(j, c, key, result) == MoveFor(j, StoredFor(j, v, key, result), key, result)
  {
    StoresKeepRequests(j, v, key, result);
    var stored := StoredFor(j, v, key, result);
    NoWrites(j, v);
    NoWrites(j, c);
    if result.Success? {
      if key.stage.ProfileStage? {
        var p := j.build(result.output, v.item.source);
        PairOfWrites(j, v, StoreProfile(p), SetProfile(p));
        PairOfWrites(j, c, StoreProfile(p), SetProfile(p));
      } else if StoresFor(j, v, key, result) != [] {
        Single(j, v, StoresFor(j, v, key, result)[0]);
        Single(j, c, StoresFor(j, v, key, result)[0]);
      }
      RunIsIrrelevant(j, stored.item, c.item, key.stage);
    }
  }

  /** The next move does not depend on the recorded run. */
  lemma RunIsIrrelevant(j: Judge, a: Item, b: Item, stage: Stage)
    requires b == a.(run := b.run)
    ensures AfterSuccess(j, b, stage) == AfterSuccess(j, a, stage)
  {
    hide ShouldEscalateL1, ShouldEscalateLeaf, Eligible;
  }

  lemma SpareCommutes(j: Judge, v: World, key: ReqKey, result: Result, status: ItemStatus)
    requires Exists(v.requests, key) && Exists(StoredFor(j, v, key, result).requests, key)
    ensures StoredFor(j, Spare(v, status), key, result) == Spare(StoredFor(j, v, key, result), status)
    ensures Rest(j, Spare(v, status), key, result) == StoresFor(j, v, key, result)
      + Make(j, Spare(StoredFor(j, v, key, result), status), MoveFor(j, StoredFor(j, v, key, result), key, result))
  {
    StoresKeepRequests(j, v, key, result);
    NoWrites(j, v);
    NoWrites(j, Spare(v, status));
    if result.Success? {
      if key.stage.ProfileStage? {
        var p := j.build(result.output, v.item.source);
        PairOfWrites(j, v, StoreProfile(p), SetProfile(p));
        PairOfWrites(j, Spare(v, status), StoreProfile(p), SetProfile(p));
      } else if StoresFor(j, v, key, result) != [] {
        Single(j, v, StoresFor(j, v, key, result)[0]);
        Single(j, Spare(v, status), StoresFor(j, v, key, result)[0]);
      }
    }
    hide Make, AfterSuccess, AfterFailure;
  }

  /** What the whole rest comes to. */
  lemma RestEnds(j: Judge, v: World, key: ReqKey, result: Result)
    requires Exists(v.requests, key)
    ensures var stored := StoredFor(j, v, key, result);
      Exists(stored.requests, key) &&
      PerformAll(j, v, Rest(j, v, key, result)) == PerformAll(j, stored, Make(j, stored, MoveFor(j, stored, key, result)))
  {
    StoresKeepRequests(j, v, key, result);
    hide Make, Stores, PerformAll, AfterSuccess, AfterFailure;
    var stored := StoredFor(j, v, key, result);
    Appended(j, v, StoresFor(j, v, key, result), Make(j, stored, MoveFor(j, stored, key, result)));
  }

  /** Cut among the moves. */
  lemma MovesCutRepaired(j: Judge, v: World, key: ReqKey, result: Result, m: nat)
    requires Interrupted(j, v, key, result) && |StoresFor(j, v, key, result)| < m < |Rest(j, v, key, result)|
    requires InProfileWindow(j, v, key, result, m) ==> SourceIrrelevant(j, v, result)
    ensures Repaired(j, v, PerformAll(j, v, Rest(j, v, key, result)[..m]), key, result)
  {
    var stores, stored := StoresFor(j, v, key, result), StoredFor(j, v, key, result);
    StoresKeepRequests(j, v, key, result);
    assert Interrupted(j, stored, key, result);
    var move := MoveFor(j, stored, key, result);
    MoveForFits(j, stored, key, result);
    var ws, k := Make(j, stored, move), m - |stores|;
    assert Rest(j, v, key, result)[..m] == stores + ws[..k];
    Appended(j, v, stores, ws[..k]);
    RestEnds(j, v, key, result);
    MakeRepaired(j, stored, move, k);
    var c := PerformAll(j, stored, ws[..k]);
    NoWrites(j, c);
    assert key.stage.ProfileStage? && result.Success? ==> |stores| == 2;
    hide Make, Stores, PerformAll, AfterSuccess, AfterFailure, MoveFits, Perform;
    if !(c == PerformAll(j, stored, ws) && !Recorded(c)) {
      assert key.stage.ProfileStage? ==> SourceIrrelevant(j, v, result);
      RemadeIsRepaired(j, v, c, key, result);
    }
  }

  lemma RemadeIsRepaired(j: Judge, v: World, c: World, key: ReqKey, result: Result)
    requires Interrupted(j, v, key, result) && Unmoved(StoredFor(j, v, key, result), c)
    requires key.stage.ProfileStage? ==> SourceIrrelevant(j, v, result)
    requires Exists(StoredFor(j, v, key, result).requests, key)
    requires Remade(j, StoredFor(j, v, key, result), c, MoveFor(j, StoredFor(j, v, key, result), key, result))
    ensures Repaired(j, v, c, key, result)
  {
    var stored := StoredFor(j, v, key, result);
    var move := MoveFor(j, stored, key, result);
    StoresKeepRequests(j, v, key, result);
    StoredStays(j, v, c, key, result);
    assert Recorded(c) && RecordedKey(c) == key && RecordedResult(Get(c.requests, key)) == result;
    hide Make, Stores, PerformAll, AfterSuccess, AfterFailure, Perform, Unmoved, Interrupted, SourceIrrelevant;
    ReconcilingPerformsTheRest(j, c, key, result);
    RestEnds(j, c, key, result);
    RestEnds(j, v, key, result);
    var t := PerformAll(j, c, Reconcile(j, c));
    assert t == PerformAll(j, c, Make(j, c, move));
    if t != PerformAll(j, stored, Make(j, stored, move)) {
      var status :| t == PerformAll(j, Spare(stored, status), Make(j, Spare(stored, status), move));
      SpareIsRest(j, v, key, result, status);
      assert t == PerformAll(j, Spare(v, status), Rest(j, Spare(v, status), key, result));
    }
  }

  lemma SpareIsRest(j: Judge, v: World, key: ReqKey, result: Result, status: ItemStatus)
    requires Exists(v.requests, key) && Exists(StoredFor(j, v, key, result).requests, key)
    ensures PerformAll(j, Spare(v, status), Rest(j, Spare(v, status), key, result)) ==
      PerformAll(j, Spare(StoredFor(j, v, key, result), status),
                 Make(j, Spare(StoredFor(j, v, key, result), status), MoveFor(j, StoredFor(j, v, key, result), key, result)))
  {
    SpareCommutes(j, v, key, result, status);
    RestEnds(j, Spare(v, status), key, result);
    SameMove(j, StoredFor(j, v, key, result), status, key, result);
  }

  lemma SameMove(j: Judge, stored: World, status: ItemStatus, key: ReqKey, result: Result)
    requires Exists(stored.requests, key)
    ensures MoveFor(j, Spare(stored, status), key, result) == MoveFor(j, stored, key, result)
  {
    hide AfterSuccess, AfterFailure;
  }

  /** Cut anywhere after the result was recorded. */
  lemma RestIsRepaired(j: Judge, v: World, key: ReqKey, result: Result, m: nat)
    requires Interrupted(j, v, key, result) && m < |Rest(j, v, key, result)|
    requires InProfileWindow(j, v, key, result, m) ==> SourceIrrelevant(j, v, result)
    ensures Repaired(j, v, PerformAll(j, v, Rest(j, v, key, result)[..m]), key, result)
  {
    if m <= |StoresFor(j, v, key, result)| {
      StoresCutRepaired(j, v, key, result, m);
    } else {
      MovesCutRepaired(j, v, key, result, m);
    }
  }

  // ---------- in terms of apply_request_result ----------

  lemma RunningIsIdle(j: Judge, w: World, lost: nat)
    requires Inv(j, w, lost) && w.item.status.Running?
    ensures Idle(w.item) && !w.item.stage.Complete?
  {
  }

  lemma RecordingInterrupts(j: Judge, w: World, key: ReqKey, result: Result, lost: nat)
    requires Inv(j, w, lost) && Delivered(w, key, result) && w.item.status.Running?
    ensures var v := Perform(j, w, Close(key, Outcome(w, key, result)));
      && Exists(v.requests, key) && v.item == w.item && Interrupted(j, v, key, result)
      && ApplyResult(j, w, key, result) == [Close(key, Outcome(w, key, result))] + Rest(j, v, key, result)
  {
    ClosingFits(j, w, key, result, lost);
    var v := Perform(j, w, Close(key, Outcome(w, key, result)));
    RunningIsIdle(j, w, lost);
    hide Inv, Ready, StagesFit;
    assert Get(v.requests, key) == Outcome(w, key, result);
    StoresKeepRequests(j, v, key, result);
    NoWrites(j, v);
    hide Make, Stores, AfterSuccess, AfterFailure, PerformAll;
  }

  /** After the first write, a cut of the result is a cut of its rest. */
  lemma CutIsCutOfRest(j: Judge, w: World, key: ReqKey, result: Result, cut: nat, lost: nat)
    requires Inv(j, w, lost) && Delivered(w, key, result) && w.item.status.Running? && 1 <= cut <= |ApplyResult(j, w, key, result)|
    ensures var v := Perform(j, w, Close(key, Outcome(w, key, result)));
      && Exists(v.requests, key) && Interrupted(j, v, key, result) && v.item == w.item
      && |ApplyResult(j, w, key, result)| == 1 + |Rest(j, v, key, result)|
      && PerformAll(j, w, ApplyResult(j, w, key, result)[..cut]) == PerformAll(j, v, Rest(j, v, key, result)[..cut - 1])
      && PerformAll(j, w, ApplyResult(j, w, key, result)) == PerformAll(j, v, Rest(j, v, key, result))
  {
    hide ApplyResult, Rest, PerformAll, Perform, Interrupted, Inv;
    var close := Close(key, Outcome(w, key, result));
    var v := Perform(j, w, close);
    RecordingInterrupts(j, w, key, result, lost);
    var rest := Rest(j, v, key, result);
    TakeAfter([close], rest, cut);
    Single(j, w, close);
    Appended(j, w, [close], rest[..cut - 1]);
    Appended(j, w, [close], rest);
  }

  /**
   apply_request_result cut after any write but the last, then reconciled: the item, its
   requests and its assignments are as if it had not been cut, up to one classification run that
   nothing refers to.  A profile result must still have its source text.
   */
  lemma CrashedResultIsRepaired(j: Judge, w: World, key: ReqKey, result: Result, cut: nat, lost: nat)
    requires Inv(j, w, lost) && Delivered(w, key, result) && w.item.status.Running? && 1 <= cut < |ApplyResult(j, w, key, result)|
    requires key.stage.ProfileStage? && result.Success? ==>
      cut < 3 || j.build(result.output, None) == j.build(result.output, w.item.source)
    ensures var c := PerformAll(j, w, ApplyResult(j, w, key, result)[..cut]);
      var t := PerformAll(j, c, Reconcile(j, c));
      || t == PerformAll(j, w, ApplyResult(j, w, key, result))
      || exists status :: t == PerformAll(j, Spare(w, status), ApplyResult(j, Spare(w, status), key, result))
  {
    hide ApplyResult, Rest, PerformAll, Perform, Reconcile, Interrupted, Inv, Spare;
    var v := Perform(j, w, Close(key, Outcome(w, key, result)));
    CutIsCutOfRest(j, w, key, result, cut, lost);
    RestIsRepaired(j, v, key, result, cut - 1);
    var c := PerformAll(j, v, Rest(j, v, key, result)[..cut - 1]);
    var t := PerformAll(j, c, Reconcile(j, c));
    if t != PerformAll(j, v, Rest(j, v, key, result)) {
      SpareExists(j, v, c, key, result, t);
      var status :| Exists(Spare(v, status).requests, key) && t == PerformAll(j, Spare(v, status), Rest(j, Spare(v, status), key, result));
      SpareResult(j, w, key, result, status, lost);
    }
  }

  lemma SpareExists(j: Judge, v: World, c: World, key: ReqKey, result: Result, t: World)
    requires Exists(v.requests, key) && Repaired(j, v, c, key, result)
    requires t == PerformAll(j, c, Reconcile(j, c)) && t != PerformAll(j, v, Rest(j, v, key, result))
    ensures exists status :: Exists(Spare(v, status).requests, key) && t == PerformAll(j, Spare(v, status), Rest(j, Spare(v, status), key, result))
  {
    hide PerformAll, Rest, Reconcile;
  }

  lemma SpareResult(j: Judge, w: World, key: ReqKey, result: Result, status: ItemStatus, lost: nat)
    requires Inv(j, w, lost) && Delivered(w, key, result) && w.item.status.Running?
    ensures var v := Perform(j, w, Close(key, Outcome(w, key, result)));
      Exists(Spare(v, status).requests, key) &&
      PerformAll(j, Spare(w, status), ApplyResult(j, Spare(w, status), key, result))
        == PerformAll(j, Spare(v, status), Rest(j, Spare(v, status), key, result))
  {
    var close := Close(key, Outcome(w, key, result));
    var v := Perform(j, w, close);
    RecordingInterrupts(j, w, key, result, lost);
    assert Exists(v.requests, key);
    assert Inv(j, Spare(w, status), lost) by { SpareKeepsInv(j, w, status, lost); }
    RecordingInterrupts(j, Spare(w, status), key, result, lost);
    assert Perform(j, Spare(w, status), close) == Spare(v, status);
    hide ApplyResult, Rest, PerformAll, Perform, Interrupted, Inv, Spare;
    Appended(j, Spare(w, status), [close], Rest(j, Spare(v, status), key, result));
    Single(j, Spare(w, status), close);
  }

  lemma SpareKeepsInv(j: Judge, w: World, status: ItemStatus, lost: nat)
    requires Inv(j, w, lost)
    ensures Inv(j, Spare(w, status), lost)
  {
  }

  predicate SetsProfile(w: Write) { w.SetProfile? || w.Recover? }

  lemma {:induction false} ProfileKept(j: Judge, w: World, ws: seq<Write>)
    requires forall i :: 0 <= i < |ws| ==> !SetsProfile(ws[i])
    ensures PerformAll(j, w, ws).item.profile == w.item.profile
    decreases |ws|
  {
    if ws != [] {
      assert !SetsProfile(ws[0]);
      assert forall i :: 0 <= i < |ws[1..]| ==> ws[1..][i] == ws[i + 1];
      ProfileKept(j, Perform(j, w, ws[0]), ws[1..]);
    }
  }

  /** After a whole profile result the item holds the profile built from the source it then had. */
  lemma ProfileEnds(j: Judge, v: World, key: ReqKey, output: Output)
    requires Exists(v.requests, key) && key.stage.ProfileStage?
    ensures PerformAll(j, v, Rest(j, v, key, Success(output))).item.profile == Some(j.build(output, v.item.source))
  {
    var stored, p := StoredFor(j, v, key, Success(output)), j.build(output, v.item.source);
    PairOfWrites(j, v, StoreProfile(p), SetProfile(p));
    RestEnds(j, v, key, Success(output));
    var move := AfterProfile(ProfileOf(stored.item));
    assert MoveFor(j, stored, key, Success(output)) == move;
    assert forall i :: 0 <= i < |Make(j, stored, move)| ==> !SetsProfile(Make(j, stored, move)[i]);
    hide Make, Rest;
    ProfileKept(j, stored, Make(j, stored, move));
  }

  /** Inside the window the item stands at the profile stage without a source. */
  lemma InWindow(j: Judge, v: World, key: ReqKey, output: Output, m: nat)
    requires Interrupted(j, v, key, Success(output)) && InProfileWindow(j, v, key, Success(output), m)
    ensures var c := PerformAll(j, v, Rest(j, v, key, Success(output))[..m]);
      c.item.source.None? && Recorded(c) && RecordedKey(c) == key && RecordedResult(Get(c.requests, key)) == Success(output)
  {
    var p, stores := j.build(output, v.item.source), StoresFor(j, v, key, Success(output));
    var stored := StoredFor(j, v, key, Success(output));
    PairOfWrites(j, v, StoreProfile(p), SetProfile(p));
    StoresKeepRequests(j, v, key, Success(output));
    var move := MoveFor(j, stored, key, Success(output));
    var ws := Make(j, stored, move);
    TakeAfter(stores, ws, m);
    Appended(j, v, stores, ws[..m - 2]);
    if m == 2 {
      assert ws[..0] == [];
      NoWrites(j, stored);
    } else {
      assert ws[..m - 2] == [ws[0]] && (ws[0] == InsertRequest(L1) || ws[0].InsertRun?);
      Single(j, stored, ws[0]);
    }
  }

  /**
   In the window in which the source text is gone and the item has not moved, the reconciled
   profile is the one the parser builds without a source: the crash is repaired exactly when
   that is the profile it had built.
   */
  lemma ProfileWindowRebuildsUngrounded(j: Judge, v: World, key: ReqKey, output: Output, m: nat)
    requires Interrupted(j, v, key, Success(output)) && InProfileWindow(j, v, key, Success(output), m)
    ensures Repaired(j, v, PerformAll(j, v, Rest(j, v, key, Success(output))[..m]), key, Success(output)) <==>
      j.build(output, None) == j.build(output, v.item.source)
  {
    var result := Success(output);
    var c := PerformAll(j, v, Rest(j, v, key, result)[..m]);
    if j.build(output, None) == j.build(output, v.item.source) {
      RestIsRepaired(j, v, key, result, m);
    } else {
      InWindow(j, v, key, output, m);
      hide Rest, Interrupted, PerformAll, Perform, InProfileWindow;
      ReconcilingPerformsTheRest(j, c, key, result);
      ProfileEnds(j, c, key, output);
      ProfileEnds(j, v, key, output);
      forall status ensures PerformAll(j, Spare(v, status), Rest(j, Spare(v, status), key, result)).item.profile
                         == Some(j.build(output, v.item.source))
      {
        ProfileEnds(j, Spare(v, status), key, output);
      }
    }
  }
}

/** Every event keeps the shape of an item, whether it runs to its end or is cut short anywhere. */
module BatchEvents {
  import opened Acceptance
  import opened BatchItems
  import opened BatchWrites
  import opened BatchShape

  // ---------- a result, recorded ----------

  /** What a recorded result is applied to. */
  ghost predicate Ready(j: Judge, w: World, lost: nat) {
    && StagesFit(w.requests, j.maxAttempts + lost) && !w.item.stage.Complete?
    && forall stage :: Rank(stage) < Rank(w.item.stage) ==> Ahead(At(w.requests, stage), lost)
  }

  /** How many more results are lost if the recording is cut short here. */
  function Loss(item: Item): nat { if item.status.Pending? then 1 else 0 }

  lemma ClosingKeepsStages(requests: Requests, key: ReqKey, req: Req, bound: nat)
    requires StagesFit(requests, bound) && Exists(requests, key) && key.attempt == |At(requests, key.stage)|
    requires req.jev == Get(requests, key).jev
    ensures StagesFit(requests[key.stage := At(requests, key.stage)[key.attempt - 1 := req]], bound)
  {
    var more := requests[key.stage := At(requests, key.stage)[key.attempt - 1 := req]];
    forall s ensures StageFits(s, At(more, s), bound) {
      StageOf(requests, bound, s);
    }
  }

  /** The newest request of the stage is closed. */
  lemma ClosingFits(j: Judge, w: World, key: ReqKey, result: Result, lost: nat)
    requires Inv(j, w, lost) && Delivered(w, key, result)
    ensures var closed := Perform(j, w, Close(key, Outcome(w, key, result))); var rs := At(closed.requests, key.stage);
      && Ready(j, closed, lost) && closed.item == w.item && closed.rows == w.rows
      && |rs| == key.attempt && rs[|rs| - 1] == Outcome(w, key, result)
      && (forall i :: 0 <= i < |rs| - 1 ==> rs[i].Broken?)
      && Inv(j, closed, lost + Loss(w.item))
  {
    var req := Outcome(w, key, result);
    var closed := Perform(j, w, Close(key, req));
    ClosingKeepsStages(w.requests, key, req, j.maxAttempts + lost);
    ClosingKeepsStages(w.requests, key, req, j.maxAttempts + lost + 1);
    StageOf(w.requests, j.maxAttempts + lost, key.stage);
    assert !key.stage.Complete? by { assert CurrentFits(w.item, At(w.requests, w.item.stage), j.maxAttempts, lost); }
    forall s | Rank(s) < Rank(w.item.stage) || Waits(w.item) ensures Ahead(At(closed.requests, s), lost + Loss(w.item)) {
      assert Ahead(At(w.requests, s), lost);
    }
    forall s | Rank(s) < Rank(w.item.stage) ensures Ahead(At(closed.requests, s), lost) {
      assert Ahead(At(w.requests, s), lost);
    }
    hide StagesFit, AllAhead;
  }

  // ---------- the move of a recorded result ----------

  /** The moves that results call for. */
  predicate MayMake(j: Judge, w: World, move: Move) {
    var rs := At(w.requests, w.item.stage);
    match move
    case Ask(stage) => 0 < Rank(stage) < Rank(w.item.stage) || JevFallsBack(w, stage)
    case RetryLater(stage, attempt) =>
      stage == w.item.stage && attempt == |rs| && 1 <= attempt < j.maxAttempts && rs[attempt - 1].Broken?
    case EndWithoutLeaf(status) => Terminal(status)
    case Classify(_) => true
  }

  lemma FailureMayMake(j: Judge, w: World, key: ReqKey, retryable: bool)
    requires w.item.stage == key.stage && !key.stage.Complete?
    requires var rs := At(w.requests, key.stage); rs != [] && |rs| == key.attempt && rs[|rs| - 1].Broken?
    ensures MayMake(j, w, AfterFailure(j, key, At(w.requests, key.stage)[key.attempt - 1].jev, retryable))
  {
  }

  lemma SuccessMayMake(j: Judge, w: World)
    requires !w.item.stage.Complete?
    ensures MayMake(j, w, AfterSuccess(j, w.item, w.item.stage)) && !AfterSuccess(j, w.item, w.item.stage).RetryLater?
  {
    hide ItemEligible, LeafOf, HitsOf, ShouldEscalateL1, ShouldEscalateLeaf;
  }

  /** Where a move takes an item: to its end, a later stage, JEV's fallback, or a scheduled retry. */
  ghost predicate LeadsOn(w: World, t: World) {
    || Terminal(t.item.status)
    || (t.item.status.Running? && Rank(t.item.stage) < Rank(w.item.stage))
    || (t.item.status.Running? && JevFallsBack(w, t.item.stage)
        && At(t.requests, t.item.stage) == At(w.requests, w.item.stage) + [Queued(false)])
    || (Resumes(t.item) && t.item.stage == w.item.stage && t.item.retryAttempt == |At(w.requests, w.item.stage)|)
  }

  lemma ReadyToAsk(j: Judge, w: World, stage: Stage, lost: nat)
    requires Ready(j, w, lost) && ValidJudge(j) && (0 < Rank(stage) < Rank(w.item.stage) || JevFallsBack(w, stage))
    ensures var t := PerformAll(j, w, EnqueueStage(w, stage)); Inv(j, t, lost) && LeadsOn(w, t)
  {
    var rs, bound := At(w.requests, stage), j.maxAttempts + lost;
    StageOf(w.requests, bound, stage);
    EnqueueIs(j, w, stage, bound);
    if Rank(stage) < Rank(w.item.stage) { assert Ahead(rs, lost); }
    hide EnqueueStage;
    if NewestLive(rs) {
      Single(j, w, EnterStage(stage));
      EnterKeepsInv(j, w, stage, lost);
    } else {
      OneMoreStagesFit(w.requests, stage, bound);
      PairOfWrites(j, w, InsertRequest(stage), EnterStage(stage));
      var next := Perform(j, w, InsertRequest(stage));
      LowerAheadOf(next, w, stage, lost);
      EnterKeepsInv(j, next, stage, lost);
    }
  }

  lemma EndedFits(j: Judge, w: World, lost: nat)
    requires StagesFit(w.requests, j.maxAttempts + lost) && Terminal(w.item.status)
    ensures Inv(j, w, lost)
  {
  }

  /** A move made to its end. */
  lemma MoveKeepsInv(j: Judge, w: World, move: Move, lost: nat)
    requires Ready(j, w, lost) && ValidJudge(j) && MayMake(j, w, move)
    ensures var t := PerformAll(j, w, Make(j, w, move)); Inv(j, t, lost) && LeadsOn(w, t)
  {
    match move
    case Ask(stage) => ReadyToAsk(j, w, stage, lost);
    case RetryLater(stage, attempt) => Single(j, w, ScheduleRetry(stage, attempt));
    case EndWithoutLeaf(status) =>
      CompletingEnds(w, status);
      EndingEnds(j, w, CompleteWithoutLeaf(w, status));
      EndedFits(j, PerformAll(j, w, CompleteWithoutLeaf(w, status)), lost);
      hide PerformAll, Inv;
    case Classify(error) =>
      FinalizingEnds(j, w, error);
      EndingEnds(j, w, Finalize(j, w, error));
      EndedFits(j, PerformAll(j, w, Finalize(j, w, error)), lost);
      hide PerformAll, Inv, Finalize;
  }

  /** The item stands where it stood, and no request is taken away. */
  ghost predicate Stands(w: World, t: World) {
    && t.item.status == w.item.status && t.item.stage == w.item.stage
    && t.item.retry == w.item.retry && t.item.retryAttempt == w.item.retryAttempt
    && (At(t.requests, w.item.stage) == At(w.requests, w.item.stage)
        || (JevFallsBack(w, w.item.stage) && At(t.requests, w.item.stage) == At(w.requests, w.item.stage) + [Queued(false)]))
  }

  /** An ending cut short has only written quietly. */
  lemma QuietCutKeepsInv(j: Judge, w: World, ws: seq<Write>, lost: nat, n: nat)
    requires Inv(j, w, lost) && ws != [] && AllQuiet(ws[..|ws| - 1]) && n < |ws|
    ensures var t := PerformAll(j, w, ws[..n]); Inv(j, t, lost) && Stands(w, t)
  {
    PrefixIsQuiet(ws, n);
    QuietStays(j, w, ws[..n]);
    hide PerformAll, Inv, AllQuiet;
    StillFits(j, w, PerformAll(j, w, ws[..n]), lost);
  }

  /** A move cut short. */
  lemma MoveCutKeepsInv(j: Judge, w: World, move: Move, lost: nat, n: nat)
    requires Inv(j, w, lost) && ValidJudge(j) && !Terminal(w.item.status) && MayMake(j, w, move) && n < |Make(j, w, move)|
    ensures var t := PerformAll(j, w, Make(j, w, move)[..n]); Inv(j, t, lost) && Stands(w, t)
  {
    hide PerformAll, Inv, Finalize, CompleteWithoutLeaf, EnqueueStage, AllQuiet;
    var ws := Make(j, w, move);
    match move
    case Ask(stage) => AskKeepsInv(j, w, stage, lost, n);
    case RetryLater(stage, attempt) =>
      NoWrites(j, w);
      assert ws[..n] == [];
    case EndWithoutLeaf(status) =>
      EndsQuietly(j, w, false, status);
      QuietCutKeepsInv(j, w, ws, lost, n);
    case Classify(error) =>
      EndsQuietly(j, w, error, NeedsReview);
      QuietCutKeepsInv(j, w, ws, lost, n);
  }

  // ---------- results ----------

  lemma StoresAreQuiet(j: Judge, w: World, stage: Stage, output: Output)
    ensures AllQuiet(Stores(j, w, stage, output))
  {
  }

  /** What a recorded result stores. */
  function StoresFor(j: Judge, w: World, key: ReqKey, result: Result): seq<Write> {
    if result.Success? then Stores(j, w, key.stage, result.output) else []
  }

  function StoredFor(j: Judge, w: World, key: ReqKey, result: Result): World { PerformAll(j, w, StoresFor(j, w, key, result)) }

  /** The move a recorded result calls for. */
  function MoveFor(j: Judge, stored: World, key: ReqKey, result: Result): Move
    requires Exists(stored.requests, key)
  {
    match result
    case Failure(retryable) => AfterFailure(j, key, Get(stored.requests, key).jev, retryable)
    case Success(_) => AfterSuccess(j, stored.item, key.stage)
  }

  /** The three parts of a result: it is recorded, stored, and followed by a move. */
  lemma ResultParts(j: Judge, w: World, key: ReqKey, result: Result)
    requires Applies(w, key)
    ensures var close := Close(key, Outcome(w, key, result)); var closed := Perform(j, w, close);
      var stored := StoredFor(j, closed, key, result);
      && Exists(stored.requests, key) && Still(closed, stored)
      && ApplyResult(j, w, key, result) ==
           [close] + StoresFor(j, closed, key, result) + Make(j, stored, MoveFor(j, stored, key, result))
  {
    var close := Close(key, Outcome(w, key, result));
    var closed := Perform(j, w, close);
    NoWrites(j, closed);
    if result.Success? {
      StoresAreQuiet(j, closed, key.stage, result.output);
      QuietStays(j, closed, Stores(j, closed, key.stage, result.output));
    }
    assert Get(closed.requests, key) == Outcome(w, key, result);
    hide Make, Stores, AfterSuccess, AfterFailure, PerformAll;
  }

  lemma ReadyStill(j: Judge, w: World, t: World, lost: nat)
    requires Ready(j, w, lost) && Still(w, t)
    ensures Ready(j, t, lost)
  {
  }

  lemma MoveMayBeMade(j: Judge, closed: World, stored: World, key: ReqKey, result: Result)
    requires Still(closed, stored) && closed.item.stage == key.stage && !key.stage.Complete?
    requires var rs := At(closed.requests, key.stage); key.attempt == |rs| >= 1 && (result.Failure? ==> rs[|rs| - 1].Broken?)
    ensures MayMake(j, stored, MoveFor(j, stored, key, result))
  {
    if result.Failure? { FailureMayMake(j, stored, key, result.retryable); } else { SuccessMayMake(j, stored); }
    hide AfterSuccess, AfterFailure, MayMake;
  }

  /** A result applied to its end. */
  lemma ResultKeepsInv(j: Judge, w: World, key: ReqKey, result: Result, lost: nat)
    requires Inv(j, w, lost) && ValidJudge(j) && Delivered(w, key, result)
    ensures var closed := Perform(j, w, Close(key, Outcome(w, key, result)));
      var stored := StoredFor(j, closed, key, result); var t := PerformAll(j, w, ApplyResult(j, w, key, result));
      && Still(closed, stored) && Inv(j, t, lost) && LeadsOn(stored, t)
  {
    var close := Close(key, Outcome(w, key, result));
    var closed := Perform(j, w, close);
    var stored := StoredFor(j, closed, key, result);
    ClosingFits(j, w, key, result, lost);
    ResultParts(j, w, key, result);
    assert !key.stage.Complete?;
    hide Inv, Ready, StoredFor, StoresFor, MoveFor, Make, PerformAll, ApplyResult, LeadsOn;
    MoveMayBeMade(j, closed, stored, key, result);
    ReadyStill(j, closed, stored, lost);
    var move := MoveFor(j, stored, key, result);
    MoveKeepsInv(j, stored, move, lost);
    Single(j, w, close);
    Appended(j, w, [close], StoresFor(j, closed, key, result));
    Appended(j, w, [close] + StoresFor(j, closed, key, result), Make(j, stored, move));
  }

  /** Cut among the stores. */
  lemma StoresCut(j: Judge, w: World, key: ReqKey, result: Result, lost: nat, n: nat)
    requires Applies(w, key)
    requires var closed := Perform(j, w, Close(key, Outcome(w, key, result)));
      Inv(j, closed, lost) && 1 <= n <= 1 + |StoresFor(j, closed, key, result)| && n <= |ApplyResult(j, w, key, result)|
    ensures var closed := Perform(j, w, Close(key, Outcome(w, key, result)));
      var t := PerformAll(j, w, ApplyResult(j, w, key, result)[..n]); Inv(j, t, lost) && Stands(closed, t)
  {
    var close := Close(key, Outcome(w, key, result));
    var closed := Perform(j, w, close);
    var stores := StoresFor(j, closed, key, result);
    ResultParts(j, w, key, result);
    Single(j, w, close);
    if result.Success? { StoresAreQuiet(j, closed, key.stage, result.output); }
    hide Inv, StoredFor, MoveFor, Make, PerformAll, Perform, ApplyResult, JevFallsBack, Stores;
    assert AllQuiet(stores);
    assert ApplyResult(j, w, key, result)[..n] == [close] + stores[..n - 1];
    Appended(j, w, [close], stores[..n - 1]);
    QuietStays(j, closed, stores[..n - 1]);
    StillFits(j, closed, PerformAll(j, closed, stores[..n - 1]), lost);
  }

  /** Cut among the writes of the move. */
  lemma MoveOfResultCut(j: Judge, w: World, key: ReqKey, result: Result, lost: nat, n: nat)
    requires Applies(w, key) && ValidJudge(j)
    requires var closed := Perform(j, w, Close(key, Outcome(w, key, result)));
      var stored, stores := StoredFor(j, closed, key, result), StoresFor(j, closed, key, result);
      && Inv(j, closed, lost) && closed.item == w.item
      && (Exists(stored.requests, key) ==> MayMake(j, stored, MoveFor(j, stored, key, result)))
      && 1 + |stores| < n < |ApplyResult(j, w, key, result)|
    ensures var closed := Perform(j, w, Close(key, Outcome(w, key, result)));
      var t := PerformAll(j, w, ApplyResult(j, w, key, result)[..n]); Inv(j, t, lost) && Stands(closed, t)
  {
    var close := Close(key, Outcome(w, key, result));
    var closed := Perform(j, w, close);
    var stores, stored := StoresFor(j, closed, key, result), StoredFor(j, closed, key, result);
    ResultParts(j, w, key, result);
    Single(j, w, close);
    hide Inv, StoredFor, StoresFor, MoveFor, Make, PerformAll, Perform, ApplyResult, MayMake;
    var move, k := MoveFor(j, stored, key, result), n - 1 - |stores|;
    assert ([close] + stores + Make(j, stored, move))[..n] == [close] + stores + Make(j, stored, move)[..k];
    Appended(j, w, [close], stores);
    Appended(j, w, [close] + stores, Make(j, stored, move)[..k]);
    StillFits(j, closed, stored, lost);
    MoveCutKeepsInv(j, stored, move, lost, k);
  }

  /** A result cut short after it was recorded: the item stands where it stood. */
  lemma ResultCutKeepsInv(j: Judge, w: World, key: ReqKey, result: Result, lost: nat, n: nat)
    requires Inv(j, w, lost) && ValidJudge(j) && Delivered(w, key, result) && 1 <= n < |ApplyResult(j, w, key, result)|
    ensures var closed := Perform(j, w, Close(key, Outcome(w, key, result)));
      var t := PerformAll(j, w, ApplyResult(j, w, key, result)[..n]);
      Inv(j, t, lost + Loss(w.item)) && closed.item == w.item && Stands(closed, t)
  {
    var closed := Perform(j, w, Close(key, Outcome(w, key, result)));
    ClosingFits(j, w, key, result, lost);
    ResultParts(j, w, key, result);
    assert !key.stage.Complete?;
    hide Inv, StoredFor, StoresFor, MoveFor, Make, PerformAll, Perform, ApplyResult, MayMake, Ready, Stands;
    if n <= 1 + |StoresFor(j, closed, key, result)| {
      StoresCut(j, w, key, result, lost + Loss(w.item), n);
    } else {
      MoveMayBeMade(j, closed, StoredFor(j, closed, key, result), key, result);
      MoveOfResultCut(j, w, key, result, lost + Loss(w.item), n);
    }
  }

  // ---------- resumptions and marks ----------

  lemma ResumeKeepsInv(j: Judge, w: World, lost: nat, n: nat)
    requires Inv(j, w, lost) && ValidJudge(j) && Resumes(w.item)
    ensures var ws := ResumeRetry(w); var t := PerformAll(j, w, First(ws, n));
      && Inv(j, t, lost)
      && (n < |ws| ==> t.item == w.item)
      && (n >= |ws| ==> t.item.status.Running? && t.item.stage == w.item.stage)
      && (n >= |ws| ==> |At(t.requests, w.item.stage)| >= w.item.retryAttempt + 1)
  {
    AskKeepsInv(j, w, w.item.stage, lost, n);
    hide EnqueueStage, PerformAll;
  }

  function Marked(requests: Requests, key: ReqKey, req: Req): Requests
    requires Exists(requests, key)
  {
    requests[key.stage := At(requests, key.stage)[key.attempt - 1 := req]]
  }

  /** A queued request is the newest of its stage. */
  lemma MarkingKeepsStages(requests: Requests, key: ReqKey, req: Req, bound: nat)
    requires StagesFit(requests, bound) && Exists(requests, key) && Get(requests, key).Queued? && req.Submitted?
    requires req.jev ==> key.stage.CapabilityStage? && (Get(requests, key).jev || NoJev(At(requests, key.stage)))
    requires Get(requests, key).jev ==> req.jev
    ensures key.attempt == |At(requests, key.stage)| && StagesFit(Marked(requests, key, req), bound)
  {
    StageOf(requests, bound, key.stage);
    forall s ensures StageFits(s, At(Marked(requests, key, req), s), bound) {
      StageOf(requests, bound, s);
    }
  }

  lemma MarkKeepsInv(j: Judge, w: World, key: ReqKey, req: Req, lost: nat)
    requires Inv(j, w, lost) && Exists(w.requests, key) && Get(w.requests, key).Queued? && req.Submitted?
    requires req.jev ==> key.stage.CapabilityStage? && (Get(w.requests, key).jev || NoJev(At(w.requests, key.stage)))
    requires Get(w.requests, key).jev ==> req.jev
    ensures var t := PerformAll(j, w, [Mark(key, req)]);
      && Inv(j, t, lost) && t.item == w.item && t.requests == Marked(w.requests, key, req)
      && key.attempt == |At(w.requests, key.stage)|
  {
    Single(j, w, Mark(key, req));
    var t := Perform(j, w, Mark(key, req));
    MarkingKeepsStages(w.requests, key, req, j.maxAttempts + lost);
    forall s | !Terminal(t.item.status) && (Rank(s) < Rank(t.item.stage) || Waits(t.item)) ensures Ahead(At(t.requests, s), lost) {
      assert Ahead(At(w.requests, s), lost);
    }
    hide StagesFit, AllAhead;
  }

  // ---------- passes ----------

  /** The item still waits, no better off. */
  ghost predicate StillWaits(w: World, t: World) {
    Waits(t.item) && t.item.retry == w.item.retry && t.item.retryAttempt >= w.item.retryAttempt
  }

  /** Where a pass takes an item. */
  ghost predicate PassLeads(j: Judge, w: World, t: World) {
    || Terminal(t.item.status)
    || (t.item.status.Running? && (t.item.stage.ProfileStage? || t.item.stage.L1?))
    || (Waits(t.item) && t.item.retry.SourceRetry? && w.item.retryAttempt < t.item.retryAttempt < j.maxAttempts)
  }

  /** One write of a waiting item that keeps it waiting. */
  predicate KeepsWaiting(write: Write) { Quiet(write) || write.Recover? || write.CountSource? }

  lemma WaitingStepKeeps(j: Judge, w: World, write: Write, lost: nat)
    requires Inv(j, w, lost) && Waits(w.item) && KeepsWaiting(write)
    requires write.CountSource? ==> write.attempt >= w.item.retryAttempt
    ensures var t := Perform(j, w, write); Inv(j, t, lost) && StillWaits(w, t) && t.requests == w.requests
  {
    var t := Perform(j, w, write);
    forall s ensures Ahead(At(t.requests, s), lost) { assert Ahead(At(w.requests, s), lost); }
  }

  /** Some writes, then a question. */
  lemma AskedWaitingKeeps(j: Judge, w: World, a: seq<Write>, x: World, stage: Stage, lost: nat, n: nat)
    requires |a| > 0 && x == PerformAll(j, w, a) && Inv(j, x, lost) && ValidJudge(j) && StillWaits(w, x)
    requires stage.ProfileStage? || stage.L1?
    requires n >= |a|
    ensures var t := PerformAll(j, w, First(a + EnqueueStage(x, stage), n)); var whole := n >= |a + EnqueueStage(x, stage)|;
      && Inv(j, t, lost) && (!whole ==> StillWaits(w, t))
      && (whole ==> t.item.status.Running? && t.item.stage == stage)
  {
    FirstJoins(j, w, a, EnqueueStage(x, stage), n);
    hide EnqueueStage, Inv;
    AskKeepsInv(j, x, stage, lost, n - |a|);
  }

  lemma CaptureKeepsInv(j: Judge, w: World, source: Text, lost: nat, n: nat)
    requires Inv(j, w, lost) && ValidJudge(j) && Waits(w.item)
    ensures var ws := CaptureSource(w, source); var t := PerformAll(j, w, First(ws, n));
      && Inv(j, t, lost) && (n < |ws| ==> StillWaits(w, t))
      && (n >= |ws| ==> t.item.status.Running? && t.item.stage.ProfileStage?)
  {
    var x := Perform(j, w, SetSource(source));
    WaitingStepKeeps(j, w, SetSource(source), lost);
    Single(j, w, SetSource(source));
    NoWrites(j, w);
    assert EnqueueStage(x, ProfileStage) == EnqueueStage(w, ProfileStage);
    hide EnqueueStage, Inv, PerformAll, Perform;
    FirstIs(CaptureSource(w, source), n);
    if n > 0 { AskedWaitingKeeps(j, w, [SetSource(source)], x, ProfileStage, lost, n); }
  }

  lemma ReuseKeepsInv(j: Judge, w: World, p: Profile, lost: nat, n: nat)
    requires Inv(j, w, lost) && ValidJudge(j) && Waits(w.item)
    ensures var ws := [SetProfile(p)] + EnqueueStage(w, L1); var t := PerformAll(j, w, First(ws, n));
      && Inv(j, t, lost) && (n < |ws| ==> StillWaits(w, t)) && (n >= |ws| ==> t.item.status.Running? && t.item.stage.L1?)
  {
    var x := Perform(j, w, SetProfile(p));
    WaitingStepKeeps(j, w, SetProfile(p), lost);
    Single(j, w, SetProfile(p));
    NoWrites(j, w);
    assert EnqueueStage(x, L1) == EnqueueStage(w, L1);
    hide EnqueueStage, Inv, PerformAll, Perform;
    FirstIs([SetProfile(p)] + EnqueueStage(w, L1), n);
    if n > 0 { AskedWaitingKeeps(j, w, [SetProfile(p)], x, L1, lost, n); }
  }

  lemma RecoveryKeepsInv(j: Judge, w: World, p: Profile, lost: nat, n: nat)
    requires Inv(j, w, lost) && ValidJudge(j) && Waits(w.item)
    ensures var ws := RecoverUpstream(w, p); var t := PerformAll(j, w, First(ws, n));
      && Inv(j, t, lost) && (n < |ws| ==> StillWaits(w, t)) && (n >= |ws| ==> t.item.status.Running? && t.item.stage.L1?)
  {
    var a := Perform(j, w, StoreProfile(p));
    var x := Perform(j, a, Recover(p));
    WaitingStepKeeps(j, w, StoreProfile(p), lost);
    WaitingStepKeeps(j, a, Recover(p), lost);
    Single(j, w, StoreProfile(p));
    PairOfWrites(j, w, StoreProfile(p), Recover(p));
    NoWrites(j, w);
    assert EnqueueStage(x, L1) == EnqueueStage(w, L1);
    hide EnqueueStage, Inv, PerformAll, Perform;
    var ws := RecoverUpstream(w, p);
    FirstIs(ws, n);
    assert ws[..1] == [StoreProfile(p)];
    if n > 1 { AskedWaitingKeeps(j, w, [StoreProfile(p), Recover(p)], x, L1, lost, n); }
  }

  lemma GivingUpKeepsInv(j: Judge, w: World, lost: nat, n: nat)
    requires Inv(j, w, lost) && ValidJudge(j) && Waits(w.item)
    ensures var ws := [CountSource(w.item.retryAttempt + 1)] + CompleteWithoutLeaf(w, NeedsReview);
      var t := PerformAll(j, w, First(ws, n));
      Inv(j, t, lost) && (n < |ws| ==> StillWaits(w, t)) && (n >= |ws| ==> Terminal(t.item.status))
  {
    var count, end := CountSource(w.item.retryAttempt + 1), CompleteWithoutLeaf(w, NeedsReview);
    var x := Perform(j, w, count);
    WaitingStepKeeps(j, w, count, lost);
    Single(j, w, count);
    NoWrites(j, w);
    FirstIs([count] + end, n);
    if n > 0 {
      FirstJoins(j, w, [count], end, n);
      CompletingEnds(w, NeedsReview);
      EndingEnds(j, x, end);
      EndsQuietly(j, w, false, NeedsReview);
      StagesOf(j, x, lost);
      hide Inv, CompleteWithoutLeaf, PerformAll, Perform;
      if n - 1 < |end| {
        PrefixIsQuiet(end, n - 1);
        QuietStays(j, x, end[..n - 1]);
        StillFits(j, x, PerformAll(j, x, end[..n - 1]), lost);
      } else {
        EndedFits(j, PerformAll(j, x, end), lost);
      }
    }
  }

  lemma StagesOf(j: Judge, w: World, lost: nat)
    requires Inv(j, w, lost)
    ensures StagesFit(w.requests, j.maxAttempts + lost)
  {
  }

  lemma SchedulingKeepsInv(j: Judge, w: World, attempt: nat, lost: nat)
    requires Inv(j, w, lost) && Waits(w.item)
    ensures var t := Perform(j, w, ScheduleSource(attempt));
      Inv(j, t, lost) && Waits(t.item) && t.item.retry.SourceRetry? && t.item.retryAttempt == attempt
  {
    var t := Perform(j, w, ScheduleSource(attempt));
    forall s ensures Ahead(At(t.requests, s), lost) { assert Ahead(At(w.requests, s), lost); }
  }

  lemma FailedCaptureKeepsInv(j: Judge, w: World, fault: Fault, lost: nat, n: nat)
    requires Inv(j, w, lost) && ValidJudge(j) && Waits(w.item)
    ensures var ws := FailCapture(j, w, fault); var t := PerformAll(j, w, First(ws, n));
      && Inv(j, t, lost) && (n < |ws| ==> StillWaits(w, t)) && (n >= |ws| ==> PassLeads(j, w, t))
  {
    hide RecoverUpstream, CompleteWithoutLeaf, Inv;
    if !Exhausts(j, w.item, fault) {
      Single(j, w, ScheduleSource(w.item.retryAttempt + 1));
      NoWrites(j, w);
      FirstIs(FailCapture(j, w, fault), n);
      SchedulingKeepsInv(j, w, w.item.retryAttempt + 1, lost);
    } else if fault.upstream.Some? {
      RecoveryKeepsInv(j, w, fault.upstream.value, lost, n);
    } else {
      GivingUpKeepsInv(j, w, lost, n);
    }
  }

  lemma PassKeepsInv(j: Judge, w: World, pass: Pass, lost: nat, n: nat)
    requires Inv(j, w, lost) && ValidJudge(j) && Waits(w.item)
    ensures var ws := PassWrites(j, w, pass); var t := PerformAll(j, w, First(ws, n));
      && Inv(j, t, lost) && (n < |ws| ==> StillWaits(w, t)) && (n >= |ws| ==> PassLeads(j, w, t))
  {
    hide CaptureSource, FailCapture, EnqueueStage, Inv, PerformAll;
    match pass
    case Captures(source) => CaptureKeepsInv(j, w, source, lost, n);
    case Fails(fault) => FailedCaptureKeepsInv(j, w, fault, lost, n);
    case Reuses(p) => ReuseKeepsInv(j, w, p, lost, n);
    case Raises(source, writes, fault) => RaisedKeepsInv(j, w, source, writes, fault, lost, n);
  }

  lemma BegunIs(w: World, source: Text, writes: nat)
    ensures var ws, begun := CaptureSource(w, source), Begun(w, source, writes);
      && |begun| < |ws| && begun == First(ws, |begun|) && forall n: nat :: n < |begun| ==> begun[..n] == First(ws, n)
  {
    hide EnqueueStage;
  }

  lemma RaisedKeepsInv(j: Judge, w: World, source: Text, writes: nat, fault: Fault, lost: nat, n: nat)
    requires Inv(j, w, lost) && ValidJudge(j) && Waits(w.item)
    ensures var ws := PassWrites(j, w, Raises(source, writes, fault)); var t := PerformAll(j, w, First(ws, n));
      && Inv(j, t, lost) && (n < |ws| ==> StillWaits(w, t)) && (n >= |ws| ==> PassLeads(j, w, t))
  {
    hide CaptureSource, FailCapture, Inv, PerformAll, Begun, First, PassLeads;
    var begun := Begun(w, source, writes);
    var x := PerformAll(j, w, begun);
    BegunIs(w, source, writes);
    CaptureKeepsInv(j, w, source, lost, |begun|);
    var rest := FailCapture(j, x, fault);
    FirstJoins(j, w, begun, rest, n);
    if n < |begun| {
      CaptureKeepsInv(j, w, source, lost, n);
    } else {
      FailedCaptureKeepsInv(j, x, fault, lost, n - |begun|);
      if n >= |begun + rest| { BehindABeginning(j, w, x, PerformAll(j, x, First(rest, n - |begun|))); }
    }
  }

  lemma BehindABeginning(j: Judge, w: World, x: World, t: World)
    requires StillWaits(w, x) && PassLeads(j, x, t)
    ensures PassLeads(j, w, t)
  {
  }

  // ---------- events ----------

  /** An event that loses a result: it is cut after recording one for an item that waits. */
  predicate Loses(w: World, e: Event) { e.Cut? && e.action.Arrive? && w.item.status.Pending? }

  function LostBy(w: World, e: Event): nat { if Loses(w, e) then 1 else 0 }

  lemma ArrivalKeepsInv(j: Judge, w: World, key: ReqKey, result: Result, lost: nat, n: nat)
    requires Inv(j, w, lost) && ValidJudge(j) && Delivered(w, key, result)
    ensures var ws := ApplyResult(j, w, key, result); var t := PerformAll(j, w, First(ws, n));
      Inv(j, t, if n >= |ws| then lost else lost + Loss(w.item))
  {
    hide Inv, ApplyResult, PerformAll;
    var ws := ApplyResult(j, w, key, result);
    FirstIs(ws, n);
    if n >= |ws| {
      ResultKeepsInv(j, w, key, result, lost);
    } else if n == 0 {
      NoWrites(j, w);
      MoreLost(j, w, lost);
    } else {
      ResultCutKeepsInv(j, w, key, result, lost, n);
    }
  }

  lemma SubmitKeepsInv(j: Judge, w: World, key: ReqKey, lost: nat)
    requires Inv(j, w, lost) && Exists(w.requests, key) && Get(w.requests, key).Queued?
    ensures var req := Submitted(Get(w.requests, key).jev); var t := PerformAll(j, w, [Mark(key, req)]);
      && Inv(j, t, lost) && t.item == w.item && t.requests == Marked(w.requests, key, req)
      && key.attempt == |At(w.requests, key.stage)|
  {
    StagesOf(j, w, lost);
    StageOf(w.requests, j.maxAttempts + lost, key.stage);
    hide Inv, StagesFit;
    MarkKeepsInv(j, w, key, Submitted(Get(w.requests, key).jev), lost);
  }

  lemma NothingToResume(w: World)
    requires !Resumes(w.item)
    ensures ResumeRetry(w) == []
  {
  }

  /** The number of writes an event is allowed. */
  function Reach(e: Event, ws: seq<Write>): nat { if e.Cut? then e.writes else |ws| }

  lemma EventIs(j: Judge, w: World, e: Event)
    ensures Next(j, w, e) == PerformAll(j, w, First(ActionWrites(j, w, e.action), Reach(e, ActionWrites(j, w, e.action))))
  {
    FirstIs(ActionWrites(j, w, e.action), |ActionWrites(j, w, e.action)|);
    hide ActionWrites, PerformAll;
  }

  /** Nothing happens. */
  lemma IdleEvent(j: Judge, w: World, e: Event)
    requires ActionWrites(j, w, e.action) == []
    ensures Next(j, w, e) == w
  {
    NoWrites(j, w);
  }

  lemma DeliveryKeepsInv(j: Judge, w: World, key: ReqKey, result: Result, lost: nat, n: nat)
    requires Inv(j, w, lost) && ValidJudge(j)
    ensures var ws := ActionWrites(j, w, Arrive(key, result));
      Inv(j, PerformAll(j, w, First(ws, n)), if n < |ws| then lost + Loss(w.item) else lost)
  {
    NoWrites(j, w);
    hide Inv, PerformAll, ApplyResult;
    if Delivered(w, key, result) { ArrivalKeepsInv(j, w, key, result, lost, n); }
  }

  lemma ReapplyKeepsInv(j: Judge, w: World, lost: nat, n: nat)
    requires Inv(j, w, lost) && ValidJudge(j)
    ensures Inv(j, PerformAll(j, w, First(ActionWrites(j, w, Reapply), n)), lost)
  {
    NoWrites(j, w);
    hide Inv, PerformAll, ApplyResult;
    if Recorded(w) { ArrivalKeepsInv(j, w, RecordedKey(w), RecordedResult(Get(w.requests, RecordedKey(w))), lost, n); }
  }

  lemma OtherActionKeepsInv(j: Judge, w: World, a: Action, lost: nat, n: nat)
    requires Inv(j, w, lost) && ValidJudge(j) && !a.Arrive? && !a.Reapply?
    ensures Inv(j, PerformAll(j, w, First(ActionWrites(j, w, a), n)), lost)
  {
    NoWrites(j, w);
    hide Inv, PerformAll, ResumeRetry, PassWrites, NoJev, Marked;
    match a
    case Resume => if Resumes(w.item) { ResumeKeepsInv(j, w, lost, n); } else { NothingToResume(w); }
    case Submit(key) => if Exists(w.requests, key) && Get(w.requests, key).Queued? { SubmitKeepsInv(j, w, key, lost); }
    case TakeJev => if JevMayTake(w) { MarkKeepsInv(j, w, ReqKey(CapabilityStage, |At(w.requests, CapabilityStage)|), Submitted(true), lost); }
    case Seed(pass) => if MaySeed(w.item) && MayPass(pass) { PassKeepsInv(j, w, pass, lost, n); }
  }

  lemma EventKeepsInv(j: Judge, w: World, e: Event, lost: nat)
    requires Inv(j, w, lost) && ValidJudge(j)
    ensures Inv(j, Next(j, w, e), lost + LostBy(w, e))
  {
    var ws := ActionWrites(j, w, e.action);
    EventIs(j, w, e);
    hide Inv, Next, ActionWrites, First;
    match e.action
    case Arrive(key, result) =>
      DeliveryKeepsInv(j, w, key, result, lost, Reach(e, ws));
      if Loses(w, e) && Reach(e, ws) >= |ws| { MoreLost(j, Next(j, w, e), lost); }
    case Reapply => ReapplyKeepsInv(j, w, lost, Reach(e, ws));
    case _ => OtherActionKeepsInv(j, w, e.action, lost, Reach(e, ws));
  }
}

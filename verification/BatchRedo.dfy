/**
 However often the reconciliation of a recorded result is itself cut short, a last one that runs to
 its end leaves the item as if nothing had ever been cut, but for classification runs nobody refers to.
 */
module BatchRedo {
  import opened Prelude
  import opened BatchItems
  import opened BatchWrites
  import opened BatchShape
  import opened BatchEvents
  import opened BatchRecovery

  /** The world with more runs that nothing refers to. */
  function Spares(w: World, statuses: seq<ItemStatus>): World { w.(runs := w.runs + statuses) }

  lemma OneMoreSpare(w: World, statuses: seq<ItemStatus>, status: ItemStatus)
    ensures Spare(Spares(w, statuses), status) == Spares(w, statuses + [status])
  {
    assert w.runs + statuses + [status] == w.runs + (statuses + [status]);
  }

  lemma NoSpares(w: World)
    ensures Spares(w, []) == w
  {
    assert w.runs + [] == w.runs;
  }

  ghost function MadeWith(j: Judge, s: World, statuses: seq<ItemStatus>, move: Move): World {
    PerformAll(j, Spares(s, statuses), Make(j, Spares(s, statuses), move))
  }

  /** The move made in one go, up to unused runs. */
  ghost predicate Made(j: Judge, s: World, t: World, move: Move) { exists statuses :: t == MadeWith(j, s, statuses, move) }

  // ---------- what cuts may leave of a move ----------

  /** The item stands where it stood. */
  ghost predicate Waits(s: World, c: World) { exists statuses :: c == Spares(s, statuses) }

  /** The request of the next stage is queued, and the item has not entered it. */
  ghost predicate Asked(j: Judge, s: World, c: World, move: Move) {
    && move.Ask? && 0 < Rank(move.stage) < Rank(s.item.stage) && !HasLiveRequest(s.requests, move.stage)
    && exists statuses :: c == Perform(j, Spares(s, statuses), InsertRequest(move.stage))
  }

  /** The run of the finalisation is recorded, and so are some of its rows. */
  ghost predicate Finalising(j: Judge, s: World, c: World, move: Move) {
    && move.Classify? && c.item == s.item.(run := c.item.run) && c.requests == s.requests && c.stored == s.stored
    && c.item.run.Some? && LeafOf(j, c.item).Some? && ItemEligible(j, c.item)
    && Made(j, s, PerformAll(j, c, Finalize(j, c, move.capabilityError)), move)
  }

  ghost predicate OnTheWay(j: Judge, s: World, c: World, move: Move) {
    Waits(s, c) || Asked(j, s, c, move) || Finalising(j, s, c, move)
  }

  ghost predicate Over(j: Judge, s: World, c: World, move: Move) { Made(j, s, c, move) && !Recorded(c) }

  /** The stage is not answered already. */
  predicate Unanswered(s: World, stage: Stage) { HasLiveRequest(s.requests, stage) ==> NewestOpen(At(s.requests, stage)) }

  /** Where a move may start. */
  ghost predicate MayMove(s: World, move: Move) { Idle(s.item) && MoveFits(s, move) && (move.Ask? ==> Unanswered(s, move.stage)) }

  lemma SparesMayMove(s: World, statuses: seq<ItemStatus>, move: Move)
    requires MayMove(s, move)
    ensures MayMove(Spares(s, statuses), move)
  {
  }

  lemma MadeInFull(j: Judge, s: World, statuses: seq<ItemStatus>, move: Move, c: World)
    requires c == Spares(s, statuses)
    ensures Made(j, s, PerformAll(j, c, Make(j, c, move)), move)
  {
    assert PerformAll(j, c, Make(j, c, move)) == MadeWith(j, s, statuses, move);
  }

  lemma AskCut(j: Judge, s: World, statuses: seq<ItemStatus>, stage: Stage, m: nat)
    requires MayMove(s, Ask(stage))
    requires var c := Spares(s, statuses); 0 < m <= |EnqueueStage(c, stage)|
    ensures var c := Spares(s, statuses); var d := PerformAll(j, c, EnqueueStage(c, stage)[..m]);
      Over(j, s, d, Ask(stage)) || Asked(j, s, d, Ask(stage))
  {
    var c := Spares(s, statuses);
    var ws := EnqueueStage(c, stage);
    MadeInFull(j, s, statuses, Ask(stage), c);
    assert m == |ws| ==> ws[..m] == ws;
    if HasLiveRequest(s.requests, stage) {
      Single(j, c, EnterStage(stage));
    } else {
      assert ws == [InsertRequest(stage), EnterStage(stage)] && ws[..1] == [InsertRequest(stage)];
      Single(j, c, InsertRequest(stage));
      PairOfWrites(j, c, InsertRequest(stage), EnterStage(stage));
      var next := Perform(j, c, InsertRequest(stage));
      var rs := At(next.requests, stage);
      assert rs == At(c.requests, stage) + [Queued(false)] && rs[|rs| - 1].Open();
      if stage == s.item.stage {
        assert s.item.(stage := stage, status := Running, retry := NoRetry, retryAttempt := 0) == s.item;
      }
    }
    hide PerformAll;
  }

  lemma EnteringIsLeft(j: Judge, s: World, c: World, move: Move)
    requires Asked(j, s, c, move)
    ensures Make(j, c, move) == [EnterStage(move.stage)]
    ensures Over(j, s, PerformAll(j, c, Make(j, c, move)), move)
  {
    var stage := move.stage;
    var statuses :| c == Perform(j, Spares(s, statuses), InsertRequest(stage));
    var rs := At(c.requests, stage);
    assert rs == At(s.requests, stage) + [Queued(false)];
    assert Blocks(rs[|rs| - 1]);
    Single(j, c, EnterStage(stage));
    assert Make(j, Spares(s, statuses), move) == [InsertRequest(stage), EnterStage(stage)];
    PairOfWrites(j, Spares(s, statuses), InsertRequest(stage), EnterStage(stage));
    MadeInFull(j, s, statuses, move, Spares(s, statuses));
  }

  lemma CompletionCut(j: Judge, s: World, statuses: seq<ItemStatus>, status: ItemStatus, m: nat)
    requires var c := Spares(s, statuses); 0 < m < |CompleteWithoutLeaf(c, status)|
    ensures var c := Spares(s, statuses); Waits(s, PerformAll(j, c, CompleteWithoutLeaf(c, status)[..m]))
  {
    var c := Spares(s, statuses);
    var run := InsertRun(if status.NeedsReview? then Partial else status);
    assert CompleteWithoutLeaf(c, status)[..m] == [run];
    Single(j, c, run);
    OneMoreSpare(s, statuses, run.status);
  }

  lemma ClosingCut(j: Judge, s: World, c: World, error: bool, m: nat)
    requires Finalising(j, s, c, Classify(error)) && m < |Finalize(j, c, error)|
    ensures Finalising(j, s, PerformAll(j, c, Finalize(j, c, error)[..m]), Classify(error))
  {
    hide Finalize, PerformAll, LeafOf, ItemEligible, Closing;
    RecordedFinalize(j, c, error, c.item.run.value);
    ClosingRepaired(j, c, error, c.item.run.value, m);
  }

  lemma ClassifyCut(j: Judge, s: World, statuses: seq<ItemStatus>, error: bool, m: nat)
    requires var c := Spares(s, statuses); 0 < m < |Finalize(j, c, error)|
    ensures var c := Spares(s, statuses); var d := PerformAll(j, c, Finalize(j, c, error)[..m]);
      Waits(s, d) || Finalising(j, s, d, Classify(error))
  {
    var c := Spares(s, statuses);
    MadeInFull(j, s, statuses, Classify(error), c);
    if LeafOf(j, c.item).None? || !ItemEligible(j, c.item) {
      CompletionCut(j, s, statuses, NeedsReview, m);
    } else if c.item.run.Some? {
      assert Finalising(j, s, c, Classify(error));
      ClosingCut(j, s, c, error, m);
    } else if m == 1 {
      UnrecordedFinalize(j, c, error);
      assert Finalize(j, c, error)[..1] == [InsertRun(Partial)];
      Single(j, c, InsertRun(Partial));
      OneMoreSpare(s, statuses, Partial);
    } else {
      NewRunRepaired(j, c, error, m);
      var d := PerformAll(j, c, Finalize(j, c, error)[..m]);
      assert LeafOf(j, d.item) == LeafOf(j, c.item) && ItemEligible(j, d.item);
      hide Finalize, PerformAll, LeafOf, ItemEligible;
    }
  }

  lemma AskedCut(j: Judge, s: World, c: World, move: Move, m: nat)
    requires Asked(j, s, c, move) && m <= |Make(j, c, move)|
    ensures var d := PerformAll(j, c, Make(j, c, move)[..m]); Asked(j, s, d, move) || Over(j, s, d, move)
  {
    hide PerformAll, Asked, Over, Make;
    EnteringIsLeft(j, s, c, move);
    NoWrites(j, c);
    assert Make(j, c, move)[..0] == [] && Make(j, c, move)[..1] == Make(j, c, move);
  }

  lemma FinalisingCut(j: Judge, s: World, c: World, error: bool, m: nat)
    requires Finalising(j, s, c, Classify(error)) && m <= |Finalize(j, c, error)|
    ensures var d := PerformAll(j, c, Finalize(j, c, error)[..m]);
      Finalising(j, s, d, Classify(error)) || Over(j, s, d, Classify(error))
  {
    var ws := Finalize(j, c, error);
    FinalizingEnds(j, c, error);
    hide Finalize, PerformAll, LeafOf, ItemEligible, Recorded;
    if m < |ws| {
      ClosingCut(j, s, c, error, m);
    } else {
      assert ws[..m] == ws;
      EndedIsNotRecorded(j, c, ws);
    }
  }

  lemma WaitingCut(j: Judge, s: World, statuses: seq<ItemStatus>, move: Move, m: nat)
    requires MayMove(s, move)
    requires var c := Spares(s, statuses); m <= |Make(j, c, move)|
    ensures var c := Spares(s, statuses); var d := PerformAll(j, c, Make(j, c, move)[..m]);
      OnTheWay(j, s, d, move) || Over(j, s, d, move)
  {
    var c := Spares(s, statuses);
    var ws := Make(j, c, move);
    assert (m == |ws| ==> ws[..m] == ws) && ws[..0] == [];
    NoWrites(j, c);
    if m == 0 { return; }
    SparesMayMove(s, statuses, move);
    MadeInFull(j, s, statuses, move, c);
    match move
    case Ask(stage) => AskCut(j, s, statuses, stage, m);
    case RetryLater(stage, attempt) => Single(j, c, ScheduleRetry(stage, attempt));
    case EndWithoutLeaf(status) =>
      CompletingEnds(c, status);
      hide PerformAll, Waits, Recorded;
      if m < |ws| { CompletionCut(j, s, statuses, status, m); } else { EndedIsNotRecorded(j, c, ws); }
    case Classify(error) =>
      FinalizingEnds(j, c, error);
      hide PerformAll, Waits, Finalising, Finalize, Recorded;
      if m < |ws| { ClassifyCut(j, s, statuses, error, m); } else { EndedIsNotRecorded(j, c, ws); }
  }

  /** Made once more and cut once more: still on the way, or over. */
  lemma MoveCut(j: Judge, s: World, c: World, move: Move, m: nat)
    requires MayMove(s, move) && OnTheWay(j, s, c, move) && m <= |Make(j, c, move)|
    ensures var d := PerformAll(j, c, Make(j, c, move)[..m]); OnTheWay(j, s, d, move) || Over(j, s, d, move)
  {
    hide PerformAll, Asked, Finalising, Over, MoveFits, Finalize, EnqueueStage, CompleteWithoutLeaf, Idle;
    if Asked(j, s, c, move) {
      AskedCut(j, s, c, move, m);
    } else if Finalising(j, s, c, move) {
      assert move.Classify? by { IsClassify(j, s, c, move); }
      FinalisingCut(j, s, c, move.capabilityError, m);
    } else {
      var statuses :| c == Spares(s, statuses);
      WaitingCut(j, s, statuses, move, m);
    }
  }

  lemma IsClassify(j: Judge, s: World, c: World, move: Move)
    requires Finalising(j, s, c, move)
    ensures move.Classify?
  {
  }

  lemma MoveEnds(j: Judge, s: World, c: World, move: Move)
    requires MayMove(s, move) && OnTheWay(j, s, c, move)
    ensures Made(j, s, PerformAll(j, c, Make(j, c, move)), move)
  {
    if Asked(j, s, c, move) {
      EnteringIsLeft(j, s, c, move);
    } else if !Finalising(j, s, c, move) {
      var statuses :| c == Spares(s, statuses);
      MadeInFull(j, s, statuses, move, c);
    }
  }

  lemma OnTheWayIsUnmoved(j: Judge, s: World, c: World, move: Move)
    requires OnTheWay(j, s, c, move)
    ensures Unmoved(s, c)
  {
  }

  // ---------- what cuts may leave of a recorded result ----------

  predicate Holds(c: World, key: ReqKey, result: Result) {
    Recorded(c) && RecordedKey(c) == key && RecordedResult(Get(c.requests, key)) == result
  }

  /** The result is not stored in full yet; storing it again comes to the same. */
  ghost predicate Storing(j: Judge, v: World, c: World, key: ReqKey, result: Result) {
    && c.requests == v.requests && c.item.status == v.item.status && c.item.stage == v.item.stage
    && StoredFor(j, c, key, result) == StoredFor(j, v, key, result)
    && (key.stage.ProfileStage? ==> SourceIrrelevant(j, c, result))
  }

  /** The move that the recorded result calls for. */
  function MoveOf(j: Judge, v: World, key: ReqKey, result: Result): Move
    requires Exists(v.requests, key)
  {
    StoresKeepRequests(j, v, key, result);
    MoveFor(j, StoredFor(j, v, key, result), key, result)
  }

  /** A result is recorded, and no later stage is answered already. */
  ghost predicate Cuttable(j: Judge, v: World, key: ReqKey, result: Result) {
    Interrupted(j, v, key, result) && forall stage :: 0 < Rank(stage) < Rank(v.item.stage) ==> Unanswered(v, stage)
  }

  ghost predicate OnTrack(j: Judge, v: World, c: World, key: ReqKey, result: Result)
    requires Exists(v.requests, key)
  {
    Holds(c, key, result) &&
    (Storing(j, v, c, key, result) || OnTheWay(j, StoredFor(j, v, key, result), c, MoveOf(j, v, key, result)))
  }

  ghost predicate Finished(j: Judge, v: World, c: World, key: ReqKey, result: Result)
    requires Exists(v.requests, key)
  {
    Over(j, StoredFor(j, v, key, result), c, MoveOf(j, v, key, result))
  }

  lemma StoredMayMove(j: Judge, v: World, key: ReqKey, result: Result)
    requires Cuttable(j, v, key, result)
    ensures var stored := StoredFor(j, v, key, result);
      && MayMove(stored, MoveOf(j, v, key, result)) && Waits(stored, stored) && Holds(stored, key, result)
      && stored.item.stage == key.stage
  {
    StoresKeepRequests(j, v, key, result);
    var stored := StoredFor(j, v, key, result);
    assert Interrupted(j, stored, key, result);
    MoveForFits(j, stored, key, result);
    NoSpares(stored);
  }

  lemma StoringCut(j: Judge, v: World, c: World, key: ReqKey, result: Result, m: nat)
    requires Exists(v.requests, key) && Storing(j, v, c, key, result) && m <= |StoresFor(j, c, key, result)|
    ensures Storing(j, v, PerformAll(j, c, StoresFor(j, c, key, result)[..m]), key, result)
  {
    StoringAgain(j, c, key, result, m);
    var ws := StoresFor(j, c, key, result);
    assert ws[..0] == [] && ws[..|ws|] == ws;
    NoWrites(j, c);
    if m > 0 && key.stage.ProfileStage? {
      var p := j.build(result.output, c.item.source);
      assert ws[..1] == [StoreProfile(p)];
      Single(j, c, StoreProfile(p));
      PairOfWrites(j, c, StoreProfile(p), SetProfile(p));
    }
  }

  /** Storing what is stored writes nothing new, however much of it is done. */
  lemma StoredPrefix(j: Judge, c: World, key: ReqKey, result: Result, m: nat)
    requires StoredFor(j, c, key, result) == c && m <= |StoresFor(j, c, key, result)|
    ensures PerformAll(j, c, StoresFor(j, c, key, result)[..m]) == c
  {
    var ws := StoresFor(j, c, key, result);
    assert ws[..0] == [] && ws[..|ws|] == ws;
    NoWrites(j, c);
    if m == 1 && key.stage.ProfileStage? {
      var p := j.build(result.output, c.item.source);
      assert ws[..1] == [StoreProfile(p)];
      Single(j, c, StoreProfile(p));
      PairOfWrites(j, c, StoreProfile(p), SetProfile(p));
    }
  }

  lemma HoldsStays(s: World, c: World, key: ReqKey, result: Result)
    requires Holds(s, key, result) && Unmoved(s, c) && s.item.stage == key.stage
    ensures Holds(c, key, result)
  {
  }

  /** From a state on the way, the rest is the move once more. */
  lemma RestOnTheWay(j: Judge, v: World, c: World, key: ReqKey, result: Result)
    requires Cuttable(j, v, key, result) && (key.stage.ProfileStage? ==> SourceIrrelevant(j, v, result))
    requires OnTheWay(j, StoredFor(j, v, key, result), c, MoveOf(j, v, key, result))
    ensures Exists(c.requests, key) && StoredFor(j, c, key, result) == c
    ensures Rest(j, c, key, result) == StoresFor(j, c, key, result) + Make(j, c, MoveOf(j, v, key, result))
  {
    var stored := StoredFor(j, v, key, result);
    StoredMayMove(j, v, key, result);
    OnTheWayIsUnmoved(j, stored, c, MoveOf(j, v, key, result));
    StoredStays(j, v, c, key, result);
    hide Make, StoresFor, OnTheWay, Cuttable;
  }

  lemma RestOfStoring(j: Judge, v: World, c: World, key: ReqKey, result: Result)
    requires Exists(v.requests, key) && Storing(j, v, c, key, result)
    ensures Exists(c.requests, key)
    ensures Rest(j, c, key, result)
         == StoresFor(j, c, key, result) + Make(j, StoredFor(j, v, key, result), MoveOf(j, v, key, result))
  {
  }

  /** A cut of the rest, behind what it stores, is a cut of the move. */
  lemma BehindTheStores(j: Judge, c: World, stores: seq<Write>, ws: seq<Write>, m: nat)
    requires m <= |stores + ws|
    ensures PerformAll(j, c, (stores + ws)[..m]) ==
      if m <= |stores| then PerformAll(j, c, stores[..m]) else PerformAll(j, PerformAll(j, c, stores), ws[..m - |stores|])
  {
    if m <= |stores| {
      assert (stores + ws)[..m] == stores[..m];
    } else {
      assert (stores + ws)[..m] == stores + ws[..m - |stores|];
      Appended(j, c, stores, ws[..m - |stores|]);
    }
  }

  lemma StoringHolds(j: Judge, v: World, c: World, d: World, key: ReqKey, result: Result)
    requires Storing(j, v, c, key, result) && Storing(j, v, d, key, result) && Holds(c, key, result)
    ensures Holds(d, key, result)
  {
    hide StoredFor, SourceIrrelevant;
  }

  lemma StoringRestCut(j: Judge, v: World, c: World, key: ReqKey, result: Result, m: nat)
    requires Cuttable(j, v, key, result) && Holds(c, key, result) && Storing(j, v, c, key, result)
    requires m <= |Rest(j, c, key, result)|
    ensures var d := PerformAll(j, c, Rest(j, c, key, result)[..m]); OnTrack(j, v, d, key, result) || Finished(j, v, d, key, result)
  {
    var stored, move, stores := StoredFor(j, v, key, result), MoveOf(j, v, key, result), StoresFor(j, c, key, result);
    hide PerformAll, StoresFor, StoredFor, MoveOf, Make, Cuttable, OnTheWay, Over, SourceIrrelevant, Rest, Holds, Storing, Finished;
    RestOfStoring(j, v, c, key, result);
    BehindTheStores(j, c, stores, Make(j, stored, move), m);
    if m <= |stores| {
      StoringCut(j, v, c, key, result, m);
      StoringHolds(j, v, c, PerformAll(j, c, stores[..m]), key, result);
    } else {
      StoredForIs(j, c, key, result);
      CutFromTheWay(j, v, stored, key, result, m - |stores|);
    }
  }

  lemma RestCutOnTheWay(j: Judge, v: World, c: World, key: ReqKey, result: Result, m: nat)
    requires Cuttable(j, v, key, result) && (key.stage.ProfileStage? ==> SourceIrrelevant(j, v, result))
    requires Holds(c, key, result) && OnTheWay(j, StoredFor(j, v, key, result), c, MoveOf(j, v, key, result))
    requires m <= |Rest(j, c, key, result)|
    ensures var d := PerformAll(j, c, Rest(j, c, key, result)[..m]); OnTrack(j, v, d, key, result) || Finished(j, v, d, key, result)
  {
    var move, stores := MoveOf(j, v, key, result), StoresFor(j, c, key, result);
    hide PerformAll, StoresFor, StoredFor, MoveOf, Make, Cuttable, OnTheWay, Over, SourceIrrelevant, Rest;
    RestOnTheWay(j, v, c, key, result);
    BehindTheStores(j, c, stores, Make(j, c, move), m);
    StoredForIs(j, c, key, result);
    if m <= |stores| {
      StoredPrefix(j, c, key, result, m);
    } else {
      CutFromTheWay(j, v, c, key, result, m - |stores|);
    }
  }

  lemma RestCut(j: Judge, v: World, c: World, key: ReqKey, result: Result, m: nat)
    requires Cuttable(j, v, key, result) && (key.stage.ProfileStage? ==> SourceIrrelevant(j, v, result))
    requires OnTrack(j, v, c, key, result) && m <= |Rest(j, c, key, result)|
    ensures var d := PerformAll(j, c, Rest(j, c, key, result)[..m]); OnTrack(j, v, d, key, result) || Finished(j, v, d, key, result)
  {
    hide PerformAll, Rest, Cuttable, Storing, OnTheWay, Finished, SourceIrrelevant;
    if Storing(j, v, c, key, result) {
      StoringRestCut(j, v, c, key, result, m);
    } else {
      RestCutOnTheWay(j, v, c, key, result, m);
    }
  }

  lemma StoredForIs(j: Judge, c: World, key: ReqKey, result: Result)
    ensures PerformAll(j, c, StoresFor(j, c, key, result)) == StoredFor(j, c, key, result)
  {
  }

  lemma CutFromTheWay(j: Judge, v: World, c: World, key: ReqKey, result: Result, m: nat)
    requires Cuttable(j, v, key, result)
    requires var stored := StoredFor(j, v, key, result); c == stored || OnTheWay(j, stored, c, MoveOf(j, v, key, result))
    requires m <= |Make(j, c, MoveOf(j, v, key, result))|
    ensures var d := PerformAll(j, c, Make(j, c, MoveOf(j, v, key, result))[..m]);
      OnTrack(j, v, d, key, result) || Finished(j, v, d, key, result)
  {
    var stored, move := StoredFor(j, v, key, result), MoveOf(j, v, key, result);
    StoredMayMove(j, v, key, result);
    assert OnTheWay(j, stored, c, move);
    hide PerformAll, StoredFor, MoveOf, Make, Cuttable, MayMove, OnTheWay, Over, Waits, Storing, Holds;
    MoveCut(j, stored, c, move, m);
    var d := PerformAll(j, c, Make(j, c, move)[..m]);
    if OnTheWay(j, stored, d, move) {
      OnTheWayIsUnmoved(j, stored, d, move);
      HoldsStays(stored, d, key, result);
    }
  }

  // ---------- reconciliations, cut any number of times ----------

  /** reconcile_recorded_results again and again, each time cut after so many writes. */
  ghost function Redone(j: Judge, c: World, cuts: seq<nat>): World
    decreases |cuts|
  {
    if cuts == [] then c else Redone(j, PerformAll(j, c, First(Reconcile(j, c), cuts[0])), cuts[1..])
  }

  lemma ReconcileCut(j: Judge, v: World, c: World, key: ReqKey, result: Result, n: nat)
    requires Cuttable(j, v, key, result) && (key.stage.ProfileStage? ==> SourceIrrelevant(j, v, result))
    requires OnTrack(j, v, c, key, result)
    ensures var d := PerformAll(j, c, First(Reconcile(j, c), n)); OnTrack(j, v, d, key, result) || Finished(j, v, d, key, result)
  {
    var close, rest := Close(key, Get(c.requests, key)), Rest(j, c, key, result);
    ReconcileIs(j, c, key, result);
    RecordingAgainIsIdle(j, c, key);
    Single(j, c, close);
    NoWrites(j, c);
    hide PerformAll, Perform, Reconcile, Rest, Cuttable, SourceIrrelevant, OnTrack, Finished;
    var m := if n > 1 + |rest| then |rest| else n - 1;
    if n == 0 {
      assert First(Reconcile(j, c), n) == [];
    } else {
      assert First(Reconcile(j, c), n) == [close] + rest[..m];
      Appended(j, c, [close], rest[..m]);
      RestCut(j, v, c, key, result, m);
    }
  }

  lemma {:induction false} RedoneStays(j: Judge, v: World, c: World, key: ReqKey, result: Result, cuts: seq<nat>)
    requires Cuttable(j, v, key, result) && (key.stage.ProfileStage? ==> SourceIrrelevant(j, v, result))
    requires OnTrack(j, v, c, key, result) || Finished(j, v, c, key, result)
    ensures var d := Redone(j, c, cuts); OnTrack(j, v, d, key, result) || Finished(j, v, d, key, result)
    decreases |cuts|
  {
    if cuts != [] {
      if Finished(j, v, c, key, result) {
        assert First(Reconcile(j, c), cuts[0]) == [];
        NoWrites(j, c);
      }
      hide PerformAll, First, Reconcile, Cuttable, SourceIrrelevant, OnTrack, Finished;
      if OnTrack(j, v, c, key, result) { ReconcileCut(j, v, c, key, result, cuts[0]); }
      RedoneStays(j, v, PerformAll(j, c, First(Reconcile(j, c), cuts[0])), key, result, cuts[1..]);
    }
  }

  /** A reconciliation that runs to its end makes the move. */
  lemma ReconciliationEnds(j: Judge, v: World, c: World, key: ReqKey, result: Result)
    requires Cuttable(j, v, key, result) && (key.stage.ProfileStage? ==> SourceIrrelevant(j, v, result))
    requires OnTrack(j, v, c, key, result) || Finished(j, v, c, key, result)
    ensures Made(j, StoredFor(j, v, key, result), PerformAll(j, c, Reconcile(j, c)), MoveOf(j, v, key, result))
  {
    var stored, move := StoredFor(j, v, key, result), MoveOf(j, v, key, result);
    StoredMayMove(j, v, key, result);
    NoWrites(j, c);
    if OnTrack(j, v, c, key, result) {
      hide PerformAll, Reconcile, Rest, StoresFor, StoredFor, MoveOf, Make, Cuttable, SourceIrrelevant, OnTheWay, Waits, MayMove, Made;
      ReconcilingPerformsTheRest(j, c, key, result);
      RestEnds(j, c, key, result);
      if Storing(j, v, c, key, result) {
        RestOfStoring(j, v, c, key, result);
        assert OnTheWay(j, stored, stored, move) by { WaitingIsOnTheWay(j, stored, stored, move); }
        MoveEnds(j, stored, stored, move);
        Appended(j, c, StoresFor(j, c, key, result), Make(j, stored, move));
        StoredForIs(j, c, key, result);
      } else {
        RestOnTheWay(j, v, c, key, result);
        MoveEnds(j, stored, c, move);
        Appended(j, c, StoresFor(j, c, key, result), Make(j, c, move));
        StoredForIs(j, c, key, result);
      }
    }
  }

  lemma WaitingIsOnTheWay(j: Judge, s: World, c: World, move: Move)
    requires Waits(s, c)
    ensures OnTheWay(j, s, c, move)
  {
  }

  lemma SparesCommute(j: Judge, v: World, key: ReqKey, result: Result, statuses: seq<ItemStatus>)
    requires Exists(v.requests, key)
    ensures Exists(Spares(v, statuses).requests, key)
    ensures MadeWith(j, StoredFor(j, v, key, result), statuses, MoveOf(j, v, key, result))
         == PerformAll(j, Spares(v, statuses), Rest(j, Spares(v, statuses), key, result))
  {
    StoresKeepRequests(j, v, key, result);
    var w, stored := Spares(v, statuses), StoredFor(j, v, key, result);
    assert StoredFor(j, w, key, result) == Spares(stored, statuses) by { StoredSpares(j, v, key, result, statuses); }
    assert MoveFor(j, Spares(stored, statuses), key, result) == MoveFor(j, stored, key, result) by { hide AfterSuccess, AfterFailure; }
    hide PerformAll, Make, AfterSuccess, AfterFailure, StoresFor, Rest;
    RestEnds(j, w, key, result);
  }

  lemma StoredSpares(j: Judge, v: World, key: ReqKey, result: Result, statuses: seq<ItemStatus>)
    ensures StoredFor(j, Spares(v, statuses), key, result) == Spares(StoredFor(j, v, key, result), statuses)
  {
    NoWrites(j, v);
    NoWrites(j, Spares(v, statuses));
    if result.Success? {
      if key.stage.ProfileStage? {
        var p := j.build(result.output, v.item.source);
        PairOfWrites(j, v, StoreProfile(p), SetProfile(p));
        PairOfWrites(j, Spares(v, statuses), StoreProfile(p), SetProfile(p));
      } else if StoresFor(j, v, key, result) != [] {
        Single(j, v, StoresFor(j, v, key, result)[0]);
        Single(j, Spares(v, statuses), StoresFor(j, v, key, result)[0]);
      }
    }
  }

  lemma SparesResult(j: Judge, w: World, key: ReqKey, result: Result, statuses: seq<ItemStatus>, lost: nat)
    requires Inv(j, w, lost) && Delivered(w, key, result) && w.item.status.Running?
    ensures var v := Perform(j, w, Close(key, Outcome(w, key, result)));
      Exists(Spares(v, statuses).requests, key) &&
      PerformAll(j, Spares(w, statuses), ApplyResult(j, Spares(w, statuses), key, result))
        == PerformAll(j, Spares(v, statuses), Rest(j, Spares(v, statuses), key, result))
  {
    var close := Close(key, Outcome(w, key, result));
    var v := Perform(j, w, close);
    RecordingInterrupts(j, w, key, result, lost);
    assert Inv(j, Spares(w, statuses), lost) by { SparesKeepInv(j, w, statuses, lost); }
    RecordingInterrupts(j, Spares(w, statuses), key, result, lost);
    assert Perform(j, Spares(w, statuses), close) == Spares(v, statuses);
    hide ApplyResult, Rest, PerformAll, Perform, Cuttable, Inv, Spares;
    Appended(j, Spares(w, statuses), [close], Rest(j, Spares(v, statuses), key, result));
    Single(j, Spares(w, statuses), close);
  }

  lemma SparesKeepInv(j: Judge, w: World, statuses: seq<ItemStatus>, lost: nat)
    requires Inv(j, w, lost)
    ensures Inv(j, Spares(w, statuses), lost)
  {
  }

  // ---------- a profile result that no cut catches without its source ----------

  /** The result may be stored, but the item is as it was. */
  ghost predicate Intact(v: World, c: World) { c == v.(stored := c.stored) }

  /** The writes between the loss of the source text and the end. */
  ghost predicate InWindow(j: Judge, v: World, key: ReqKey, result: Result, n: nat)
    requires Exists(v.requests, key)
  {
    n > 0 && InProfileWindow(j, v, key, result, n - 1)
  }

  lemma FullIsOver(j: Judge, s: World, move: Move)
    requires MayMove(s, move)
    ensures Over(j, s, PerformAll(j, s, Make(j, s, move)), move)
  {
    NoSpares(s);
    MadeInFull(j, s, [], move, s);
    match move
    case Ask(stage) =>
      if HasLiveRequest(s.requests, stage) {
        Single(j, s, EnterStage(stage));
      } else {
        PairOfWrites(j, s, InsertRequest(stage), EnterStage(stage));
        assert At(Perform(j, s, InsertRequest(stage)).requests, stage) == At(s.requests, stage) + [Queued(false)];
      }
      hide PerformAll;
    case RetryLater(stage, attempt) => Single(j, s, ScheduleRetry(stage, attempt));
    case EndWithoutLeaf(status) =>
      CompletingEnds(s, status);
      EndedIsNotRecorded(j, s, CompleteWithoutLeaf(s, status));
    case Classify(error) =>
      FinalizingEnds(j, s, error);
      EndedIsNotRecorded(j, s, Finalize(j, s, error));
      hide Finalize, Recorded, PerformAll;
  }

  lemma IntactStores(j: Judge, v: World, c: World, key: ReqKey, result: Result)
    requires Intact(v, c) && key.stage.ProfileStage? && result.Success?
    ensures var p := j.build(result.output, v.item.source);
      && StoresFor(j, c, key, result) == [StoreProfile(p), SetProfile(p)]
      && StoredFor(j, c, key, result) == StoredFor(j, v, key, result)
      && Intact(v, Perform(j, c, StoreProfile(p)))
  {
    var p := j.build(result.output, v.item.source);
    PairOfWrites(j, c, StoreProfile(p), SetProfile(p));
    PairOfWrites(j, v, StoreProfile(p), SetProfile(p));
  }

  lemma IntactHolds(v: World, c: World, key: ReqKey, result: Result)
    requires Intact(v, c) && Holds(v, key, result)
    ensures Holds(c, key, result)
  {
  }

  lemma IntactRest(j: Judge, v: World, c: World, key: ReqKey, result: Result)
    requires Intact(v, c) && key.stage.ProfileStage? && result.Success? && Exists(v.requests, key)
    ensures Rest(j, c, key, result)
         == StoresFor(j, c, key, result) + Make(j, StoredFor(j, v, key, result), MoveOf(j, v, key, result))
    ensures |StoresFor(j, c, key, result)| == 2 && |Rest(j, c, key, result)| == |Rest(j, v, key, result)|
    ensures PerformAll(j, c, Rest(j, c, key, result))
         == PerformAll(j, StoredFor(j, v, key, result), Make(j, StoredFor(j, v, key, result), MoveOf(j, v, key, result)))
  {
    IntactStores(j, v, c, key, result);
    IntactStores(j, v, v, key, result);
    RestEnds(j, c, key, result);
    hide PerformAll, Make, AfterSuccess, AfterFailure;
  }

  lemma IntactCut(j: Judge, v: World, c: World, key: ReqKey, result: Result, n: nat)
    requires Cuttable(j, v, key, result) && key.stage.ProfileStage? && result.Success?
    requires Intact(v, c) && !InWindow(j, v, key, result, n)
    ensures var d := PerformAll(j, c, First(Reconcile(j, c), n)); Intact(v, d) || Finished(j, v, d, key, result)
  {
    var close, rest := Close(key, Get(c.requests, key)), Rest(j, c, key, result);
    var stored, move := StoredFor(j, v, key, result), MoveOf(j, v, key, result);
    IntactHolds(v, c, key, result);
    IntactRest(j, v, c, key, result);
    IntactStores(j, v, c, key, result);
    ReconcileIs(j, c, key, result);
    RecordingAgainIsIdle(j, c, key);
    Single(j, c, close);
    NoWrites(j, c);
    StoredMayMove(j, v, key, result);
    FullIsOver(j, stored, move);
    hide PerformAll, Perform, Reconcile, Rest, Make, Cuttable, Over, StoredFor, StoresFor, MoveOf, MayMove;
    if n < 2 {
      assert First(Reconcile(j, c), n) == if n == 0 then [] else [close];
    } else if n == 2 {
      var store := StoresFor(j, c, key, result)[0];
      assert First(Reconcile(j, c), n) == [close] + [store];
      Appended(j, c, [close], [store]);
      Single(j, c, store);
    } else {
      assert First(Reconcile(j, c), n) == [close] + rest;
      Appended(j, c, [close], rest);
    }
  }

  lemma {:induction false} RedoneStaysIntact(j: Judge, v: World, c: World, key: ReqKey, result: Result, cuts: seq<nat>)
    requires Cuttable(j, v, key, result) && key.stage.ProfileStage? && result.Success?
    requires Intact(v, c) || Finished(j, v, c, key, result)
    requires forall i :: 0 <= i < |cuts| ==> !InWindow(j, v, key, result, cuts[i])
    ensures var d := Redone(j, c, cuts); Intact(v, d) || Finished(j, v, d, key, result)
    decreases |cuts|
  {
    if cuts != [] {
      if Finished(j, v, c, key, result) {
        assert First(Reconcile(j, c), cuts[0]) == [];
        NoWrites(j, c);
      }
      hide PerformAll, First, Reconcile, Cuttable, Finished, Intact, InWindow;
      assert !InWindow(j, v, key, result, cuts[0]);
      if Intact(v, c) { IntactCut(j, v, c, key, result, cuts[0]); }
      assert forall i :: 0 <= i < |cuts[1..]| ==> cuts[1..][i] == cuts[i + 1];
      RedoneStaysIntact(j, v, PerformAll(j, c, First(Reconcile(j, c), cuts[0])), key, result, cuts[1..]);
    }
  }

  lemma IntactEnds(j: Judge, v: World, c: World, key: ReqKey, result: Result)
    requires Cuttable(j, v, key, result) && key.stage.ProfileStage? && result.Success?
    requires Intact(v, c) || Finished(j, v, c, key, result)
    ensures Made(j, StoredFor(j, v, key, result), PerformAll(j, c, Reconcile(j, c)), MoveOf(j, v, key, result))
  {
    if Intact(v, c) {
      IntactHolds(v, c, key, result);
      IntactRest(j, v, c, key, result);
      NoSpares(StoredFor(j, v, key, result));
      MadeInFull(j, StoredFor(j, v, key, result), [], MoveOf(j, v, key, result), StoredFor(j, v, key, result));
      hide PerformAll, Rest, Reconcile, Make, StoredFor, MoveOf, Cuttable, Made;
      ReconcilingPerformsTheRest(j, c, key, result);
    } else {
      NoWrites(j, c);
    }
  }

  // ---------- the theorem ----------

  /** No later stage is answered already: so it is as long as no result was lost. */
  predicate NothingAnswered(w: World) { forall stage :: 0 < Rank(stage) < Rank(w.item.stage) ==> Unanswered(w, stage) }

  lemma NothingLostNothingAnswered(j: Judge, w: World)
    requires Inv(j, w, 0) && !Terminal(w.item.status)
    ensures NothingAnswered(w)
  {
    forall stage | 0 < Rank(stage) < Rank(w.item.stage) ensures Unanswered(w, stage) {
      assert Ahead(At(w.requests, stage), 0);
      StageOf(w.requests, j.maxAttempts, stage);
      LiveIsNewest(w.requests, stage);
    }
  }

  lemma RecordedIsCuttable(j: Judge, w: World, key: ReqKey, result: Result, lost: nat)
    requires Inv(j, w, lost) && Delivered(w, key, result) && w.item.status.Running? && NothingAnswered(w)
    ensures var v := Perform(j, w, Close(key, Outcome(w, key, result)));
      Exists(v.requests, key) && Cuttable(j, v, key, result) && Holds(v, key, result)
  {
    RecordingInterrupts(j, w, key, result, lost);
    var v := Perform(j, w, Close(key, Outcome(w, key, result)));
    hide Inv, ApplyResult;
    forall stage | 0 < Rank(stage) < Rank(v.item.stage) ensures Unanswered(v, stage) {
      assert Unanswered(w, stage) && At(v.requests, stage) == At(w.requests, stage);
    }
  }

  /** The cut falls where a profile result has lost its source text and not moved the item. */
  ghost predicate LosesSource(j: Judge, w: World, key: ReqKey, result: Result, n: nat) {
    key.stage.ProfileStage? && result.Success? && 3 <= n < |ApplyResult(j, w, key, result)|
  }

  lemma LosesSourceIsWindow(j: Judge, w: World, key: ReqKey, result: Result, n: nat, lost: nat)
    requires Inv(j, w, lost) && Delivered(w, key, result) && w.item.status.Running?
    ensures var v := Perform(j, w, Close(key, Outcome(w, key, result)));
      Exists(v.requests, key) && (InWindow(j, v, key, result, n) <==> LosesSource(j, w, key, result, n))
  {
    RecordingInterrupts(j, w, key, result, lost);
    hide Inv, ApplyResult, Rest, Interrupted;
  }

  /** What the cuts come to, in terms of the recorded result. */
  lemma CutsLeadToTheMove(j: Judge, w: World, key: ReqKey, result: Result, cut: nat, cuts: seq<nat>, lost: nat)
    requires Inv(j, w, lost) && Delivered(w, key, result) && w.item.status.Running? && NothingAnswered(w)
    requires 1 <= cut <= |ApplyResult(j, w, key, result)|
    requires (exists n :: n in [cut] + cuts && LosesSource(j, w, key, result, n)) ==>
      j.build(result.output, None) == j.build(result.output, w.item.source)
    ensures var v := Perform(j, w, Close(key, Outcome(w, key, result)));
      var c := Redone(j, PerformAll(j, w, ApplyResult(j, w, key, result)[..cut]), cuts);
      Exists(v.requests, key) && Made(j, StoredFor(j, v, key, result), PerformAll(j, c, Reconcile(j, c)), MoveOf(j, v, key, result))
  {
    var v := Perform(j, w, Close(key, Outcome(w, key, result)));
    CutIsCutOfRest(j, w, key, result, cut, lost);
    RecordedIsCuttable(j, w, key, result, lost);
    var c0 := PerformAll(j, v, Rest(j, v, key, result)[..cut - 1]);
    var irrelevant := key.stage.ProfileStage? ==> SourceIrrelevant(j, v, result);
    hide ApplyResult, Rest, PerformAll, Perform, Reconcile, Cuttable, Inv, Finished, StoredFor, MoveOf, Made, Intact, Holds;
    if irrelevant {
      assert OnTrack(j, v, v, key, result);
      RestCut(j, v, v, key, result, cut - 1);
      hide OnTrack;
      RedoneStays(j, v, c0, key, result, cuts);
      ReconciliationEnds(j, v, Redone(j, c0, cuts), key, result);
    } else {
      forall n | n in [cut] + cuts ensures !InWindow(j, v, key, result, n) { LosesSourceIsWindow(j, w, key, result, n, lost); }
      assert cut in [cut] + cuts;
      FirstCutIntact(j, v, key, result, cut);
      assert forall i :: 0 <= i < |cuts| ==> cuts[i] in [cut] + cuts;
      hide InWindow;
      RedoneStaysIntact(j, v, c0, key, result, cuts);
      IntactEnds(j, v, Redone(j, c0, cuts), key, result);
    }
  }

  lemma FirstCutIntact(j: Judge, v: World, key: ReqKey, result: Result, cut: nat)
    requires Cuttable(j, v, key, result) && Holds(v, key, result) && key.stage.ProfileStage? && result.Success?
    requires 1 <= cut <= 1 + |Rest(j, v, key, result)| && !InWindow(j, v, key, result, cut)
    ensures var d := PerformAll(j, v, Rest(j, v, key, result)[..cut - 1]); Intact(v, d) || Finished(j, v, d, key, result)
  {
    var close, rest := Close(key, Get(v.requests, key)), Rest(j, v, key, result);
    assert Intact(v, v);
    IntactCut(j, v, v, key, result, cut);
    ReconcileIs(j, v, key, result);
    RecordingAgainIsIdle(j, v, key);
    Single(j, v, close);
    hide PerformAll, Perform, Reconcile, Rest, Cuttable, Intact, Finished;
    assert First(Reconcile(j, v), cut) == [close] + rest[..cut - 1];
    Appended(j, v, [close], rest[..cut - 1]);
  }

  /**
   apply_request_result cut anywhere once the result is recorded, then any number of
   reconciliations cut anywhere, then one that runs to its end: as if the result had been applied
   without a cut, up to classification runs nothing refers to.  Where a cut caught a profile result
   without its source, the parser must not have needed it.
   */
  lemma CutsConverge(j: Judge, w: World, key: ReqKey, result: Result, cut: nat, cuts: seq<nat>, lost: nat)
    requires Inv(j, w, lost) && Delivered(w, key, result) && w.item.status.Running? && NothingAnswered(w)
    requires 1 <= cut <= |ApplyResult(j, w, key, result)|
    requires (exists n :: n in [cut] + cuts && LosesSource(j, w, key, result, n)) ==>
      j.build(result.output, None) == j.build(result.output, w.item.source)
    ensures var c := Redone(j, PerformAll(j, w, ApplyResult(j, w, key, result)[..cut]), cuts);
      exists statuses :: PerformAll(j, c, Reconcile(j, c))
        == PerformAll(j, Spares(w, statuses), ApplyResult(j, Spares(w, statuses), key, result))
  {
    hide ApplyResult, Rest, PerformAll, Perform, Reconcile, Inv, Spares, StoredFor, MoveOf, LosesSource, NothingAnswered;
    CutsLeadToTheMove(j, w, key, result, cut, cuts, lost);
    var v := Perform(j, w, Close(key, Outcome(w, key, result)));
    var c := Redone(j, PerformAll(j, w, ApplyResult(j, w, key, result)[..cut]), cuts);
    var statuses :| PerformAll(j, c, Reconcile(j, c)) == MadeWith(j, StoredFor(j, v, key, result), statuses, MoveOf(j, v, key, result));
    SparesCommute(j, v, key, result, statuses);
    SparesResult(j, w, key, result, statuses, lost);
  }
}

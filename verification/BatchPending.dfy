/** A result cut short on an item that is not running: reconciliation passes it over. */
module BatchPending {
  import opened Prelude
  import opened Assignments
  import opened Acceptance
  import opened BatchItems
  import opened BatchWrites
  import opened BatchShape
  import opened BatchEvents
  import opened BatchProgress
  import opened BatchRecovery

  /** The world a crash leaves after the first `n` writes of a result. */
  ghost function CutAfter(j: Judge, w: World, key: ReqKey, result: Result, n: nat): World {
    PerformAll(j, w, First(ApplyResult(j, w, key, result), n))
  }

  /** A result that arrives for the first time, recorded and then cut short. */
  ghost predicate CutShort(j: Judge, w: World, key: ReqKey, result: Result, n: nat, lost: nat) {
    && Inv(j, w, lost) && ValidJudge(j) && Applies(w, key) && Get(w.requests, key).Open()
    && 1 <= n < |ApplyResult(j, w, key, result)|
  }

  lemma CutStands(j: Judge, w: World, key: ReqKey, result: Result, n: nat, lost: nat)
    requires CutShort(j, w, key, result, n, lost)
    ensures var c := CutAfter(j, w, key, result, n);
      && c.item.status == w.item.status && c.item.stage == w.item.stage
      && c.item.retry == w.item.retry && c.item.retryAttempt == w.item.retryAttempt
      && (w.item.status.Pending? ==> Reconcile(j, c) == [])
  {
    ResultCutKeepsInv(j, w, key, result, lost, n);
    FirstIs(ApplyResult(j, w, key, result), n);
    hide PerformAll, ApplyResult, Inv;
  }

  /** Applied to its end, the result takes a waiting item away from where it stood. */
  lemma WholeMoves(j: Judge, w: World, key: ReqKey, result: Result, lost: nat)
    requires Inv(j, w, lost) && ValidJudge(j) && Applies(w, key) && Get(w.requests, key).Open() && w.item.status.Pending?
    ensures var t := PerformAll(j, w, ApplyResult(j, w, key, result));
      t.item.status != w.item.status || t.item.retry != w.item.retry || t.item.retryAttempt != w.item.retryAttempt
  {
    ResultKeepsInv(j, w, key, result, lost);
    CurrentOf(j, w, lost);
    hide PerformAll, ApplyResult, Inv, StoresFor;
  }

  /** As applied without a cut, up to a classification run nothing refers to. */
  ghost predicate AsUncut(j: Judge, w: World, key: ReqKey, result: Result, t: World) {
    || t == PerformAll(j, w, ApplyResult(j, w, key, result))
    || exists status :: t == PerformAll(j, Spare(w, status), ApplyResult(j, Spare(w, status), key, result))
  }

  /**
   A result that was recorded and then cut short is repaired by the next reconciliation if and only if
   its item was running.
   */
  lemma RepairedExactlyIfRunning(j: Judge, w: World, key: ReqKey, result: Result, n: nat, lost: nat)
    requires CutShort(j, w, key, result, n, lost)
    requires key.stage.ProfileStage? && result.Success? ==>
      n < 3 || j.build(result.output, None) == j.build(result.output, w.item.source)
    ensures var c := CutAfter(j, w, key, result, n);
      AsUncut(j, w, key, result, PerformAll(j, c, Reconcile(j, c))) <==> w.item.status.Running?
  {
    var c := CutAfter(j, w, key, result, n);
    FirstIs(ApplyResult(j, w, key, result), n);
    CutStands(j, w, key, result, n, lost);
    hide PerformAll, ApplyResult, Inv, Reconcile, Spare;
    if w.item.status.Running? {
      CrashedResultIsRepaired(j, w, key, result, n, lost);
    } else {
      NoWrites(j, c);
      WholeMoves(j, w, key, result, lost);
      forall status ensures c != PerformAll(j, Spare(w, status), ApplyResult(j, Spare(w, status), key, result)) {
        SpareIs(w, status);
        SpareKeepsInv(j, w, status, lost);
        WholeMoves(j, Spare(w, status), key, result, lost);
      }
    }
  }

  lemma SpareIs(w: World, status: ItemStatus)
    ensures Spare(w, status).item == w.item && Spare(w, status).requests == w.requests
  {
  }

  // ---------- what a waiting item needs ----------

  /** The item entered its own stage. */
  function Entered(w: World): World {
    w.(item := w.item.(status := Running, retry := NoRetry, retryAttempt := 0))
  }

  lemma EnteredIs(j: Judge, w: World)
    ensures Perform(j, w, EnterStage(w.item.stage)) == Entered(w)
  {
  }

  /** Looks at neither the status nor the retry, and changes neither. */
  predicate Commutes(w: Write) { Quiet(w) || w.Close? || w.InsertRequest? }

  lemma {:induction false} EnteringCommutes(j: Judge, w: World, ws: seq<Write>)
    requires forall i :: 0 <= i < |ws| ==> Commutes(ws[i])
    ensures PerformAll(j, Entered(w), ws) == Entered(PerformAll(j, w, ws))
    decreases |ws|
  {
    if ws != [] {
      assert Commutes(ws[0]);
      assert forall i :: 0 <= i < |ws[1..]| ==> ws[1..][i] == ws[i + 1];
      assert Perform(j, Entered(w), ws[0]) == Entered(Perform(j, w, ws[0]));
      EnteringCommutes(j, Perform(j, w, ws[0]), ws[1..]);
    }
  }

  lemma SameMoveEntered(j: Judge, w: World, move: Move)
    ensures Make(j, Entered(w), move) == Make(j, w, move)
  {
    hide RowWrites, ManualLock, Eligible;
  }

  lemma SameMoveForEntered(j: Judge, stored: World, key: ReqKey, result: Result)
    requires Exists(stored.requests, key)
    ensures MoveFor(j, Entered(stored), key, result) == MoveFor(j, stored, key, result)
  {
    hide ShouldEscalateL1, ShouldEscalateLeaf, Eligible;
  }

  /** All but the last write of a move commute with entering the stage. */
  lemma MoveCommutes(j: Judge, w: World, move: Move)
    ensures var ws := Make(j, w, move); ws != [] && forall i :: 0 <= i < |ws| - 1 ==> Commutes(ws[i])
  {
    var ws := Make(j, w, move);
    match move
    case Ask(stage) =>
    case RetryLater(stage, attempt) =>
    case EndWithoutLeaf(status) => EndsQuietly(j, w, false, status); QuietCommutes(ws);
    case Classify(error) => EndsQuietly(j, w, error, NeedsReview); QuietCommutes(ws);
      hide Finalize;
  }

  lemma QuietCommutes(ws: seq<Write>)
    requires ws != [] && AllQuiet(ws[..|ws| - 1])
    ensures forall i :: 0 <= i < |ws| - 1 ==> Commutes(ws[i])
  {
    forall i | 0 <= i < |ws| - 1 ensures Commutes(ws[i]) { assert ws[..|ws| - 1][i] == ws[i]; }
  }

  lemma ResultEntered(j: Judge, w: World, key: ReqKey, result: Result, n: nat)
    requires Applies(w, key) && n < |ApplyResult(j, w, key, result)|
    ensures ApplyResult(j, Entered(w), key, result) == ApplyResult(j, w, key, result)
    ensures PerformAll(j, Entered(w), ApplyResult(j, w, key, result)[..n]) == Entered(PerformAll(j, w, ApplyResult(j, w, key, result)[..n]))
  {
    var close := Close(key, Outcome(w, key, result));
    var closed := Perform(j, w, close);
    var stores, stored := StoresFor(j, closed, key, result), StoredFor(j, closed, key, result);
    ResultParts(j, w, key, result);
    ResultParts(j, Entered(w), key, result);
    assert Perform(j, Entered(w), close) == Entered(closed);
    assert StoresFor(j, Entered(closed), key, result) == stores;
    if result.Success? { StoresAreQuiet(j, closed, key.stage, result.output); }
    EnteringCommutes(j, closed, stores);
    var move := MoveFor(j, stored, key, result);
    SameMoveForEntered(j, stored, key, result);
    SameMoveEntered(j, stored, move);
    MoveCommutes(j, stored, move);
    hide PerformAll, ApplyResult, Make, MoveFor, Stores, Perform;
    var all := [close] + stores + Make(j, stored, move);
    forall i | 0 <= i < n ensures Commutes(all[..n][i]) {
      assert i == 0 ==> all[i] == close;
      assert 0 < i <= |stores| ==> all[i] == stores[i - 1];
      assert |stores| < i ==> all[i] == Make(j, stored, move)[i - 1 - |stores|];
    }
    EnteringCommutes(j, w, all[..n]);
  }

  lemma EnteredKeepsInv(j: Judge, w: World, lost: nat)
    requires Inv(j, w, lost) && !Terminal(w.item.status) && At(w.requests, w.item.stage) != [] && !w.item.stage.Complete?
    ensures Inv(j, Entered(w), lost)
  {
    EnteredIs(j, w);
    EnterKeepsInv(j, w, w.item.stage, lost);
  }

  /** A resumption finds the recorded success, and the reconciliation after it applies it: as if it had come to a running item. */
  lemma ResumedSuccessIsApplied(j: Judge, w: World, key: ReqKey, output: Output, n: nat, lost: nat)
    requires CutShort(j, w, key, Success(output), n, lost) && Resumes(w.item)
    requires key.stage.ProfileStage? ==> n < 3 || j.build(output, None) == j.build(output, w.item.source)
    ensures var x := Next(j, CutAfter(j, w, key, Success(output), n), Whole(Resume));
      AsUncut(j, Entered(w), key, Success(output), PerformAll(j, x, Reconcile(j, x)))
  {
    var result := Success(output);
    var c := CutAfter(j, w, key, result, n);
    FirstIs(ApplyResult(j, w, key, result), n);
    CutStands(j, w, key, result, n, lost);
    CurrentOf(j, w, lost);
    ResultEntered(j, w, key, result, n);
    EnteredKeepsInv(j, w, lost);
    SuccessIsLive(j, w, key, output, n, lost);
    assert Next(j, c, Whole(Resume)) == Entered(c) by {
      Single(j, c, EnterStage(c.item.stage));
      EnteredIs(j, c);
    }
    assert Delivered(Entered(w), key, result);
    hide PerformAll, ApplyResult, Inv, Reconcile, Next, Spare;
    CrashedResultIsRepaired(j, Entered(w), key, result, n, lost);
  }

  /** After the cut the newest request of the stage is the recorded success. */
  lemma SuccessIsLive(j: Judge, w: World, key: ReqKey, output: Output, n: nat, lost: nat)
    requires CutShort(j, w, key, Success(output), n, lost)
    ensures EnqueueStage(CutAfter(j, w, key, Success(output), n), w.item.stage) == [EnterStage(w.item.stage)]
  {
    var c := CutAfter(j, w, key, Success(output), n);
    ResultCutKeepsInv(j, w, key, Success(output), lost, n);
    FirstIs(ApplyResult(j, w, key, Success(output)), n);
    var rs := At(c.requests, w.item.stage);
    assert Blocks(rs[|rs| - 1]);
    hide PerformAll, ApplyResult, Inv;
  }

  /** A recorded failure is forgotten: the resumption runs with an open request, and no failure is applied. */
  lemma ResumedFailureIsForgotten(j: Judge, w: World, key: ReqKey, retryable: bool, n: nat, lost: nat)
    requires CutShort(j, w, key, Failure(retryable), n, lost) && Resumes(w.item)
    ensures var x := Next(j, CutAfter(j, w, key, Failure(retryable), n), Whole(Resume));
      && x.item.status.Running? && x.item.stage == w.item.stage && AwaitsAnswer(x) && Reconcile(j, x) == []
      && |At(x.requests, x.item.stage)| == key.attempt + 1
  {
    var c := CutAfter(j, w, key, Failure(retryable), n);
    ResultCutKeepsInv(j, w, key, Failure(retryable), lost, n);
    FirstIs(ApplyResult(j, w, key, Failure(retryable)), n);
    var rs := At(c.requests, w.item.stage);
    StagesOf(j, c, lost + 1);
    EnqueueIs(j, c, w.item.stage, j.maxAttempts + lost + 1);
    hide EnqueueStage, PerformAll, ApplyResult, Inv;
    if NewestLive(rs) {
      Single(j, c, EnterStage(w.item.stage));
    } else {
      PairOfWrites(j, c, InsertRequest(w.item.stage), EnterStage(w.item.stage));
      assert At(Perform(j, c, InsertRequest(w.item.stage)).requests, w.item.stage) == rs + [Queued(false)];
    }
  }

  /** A new item has nothing that resumes it: it is left behind with its result recorded. */
  lemma NewItemsAreLeftBehind(j: Judge, w: World, key: ReqKey, result: Result, n: nat, lost: nat)
    requires CutShort(j, w, key, result, n, lost) && w.item.status.Pending? && w.item.retry.NoRetry?
    ensures LeftBehind(CutAfter(j, w, key, result, n))
  {
    ResultCutKeepsInv(j, w, key, result, lost, n);
    FirstIs(ApplyResult(j, w, key, result), n);
    CurrentOf(j, w, lost);
    hide PerformAll, ApplyResult, Inv;
  }
}

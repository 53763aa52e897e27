/** When a stage gets more requests than it may have attempts. */
module BatchLimits {
  import opened Prelude
  import opened Assignments
  import opened Acceptance
  import opened BatchItems
  import opened BatchWrites
  import opened BatchShape
  import opened BatchEvents
  import opened BatchProgress

  // ---------- counting ----------

  function InsertsOf(ws: seq<Write>, stage: Stage): nat {
    if ws == [] then 0 else (if ws[0] == InsertRequest(stage) then 1 else 0) + InsertsOf(ws[1..], stage)
  }

  lemma {:induction false} CountsAre(j: Judge, w: World, ws: seq<Write>, stage: Stage)
    ensures |At(PerformAll(j, w, ws).requests, stage)| == |At(w.requests, stage)| + InsertsOf(ws, stage)
    decreases |ws|
  {
    if ws != [] {
      CountsAre(j, Perform(j, w, ws[0]), ws[1..], stage);
      hide PerformAll;
    }
  }

  lemma {:induction false} InsertsAdd(a: seq<Write>, b: seq<Write>, stage: Stage)
    ensures InsertsOf(a + b, stage) == InsertsOf(a, stage) + InsertsOf(b, stage)
  {
    if a == [] {
      assert a + b == b;
    } else {
      assert (a + b)[1..] == a[1..] + b;
      InsertsAdd(a[1..], b, stage);
    }
  }

  predicate NoInsert(ws: seq<Write>) { forall i :: 0 <= i < |ws| ==> !ws[i].InsertRequest? }

  lemma {:induction false} NoneInserted(ws: seq<Write>, stage: Stage)
    requires NoInsert(ws)
    ensures InsertsOf(ws, stage) == 0
  {
    if ws != [] {
      assert !ws[0].InsertRequest?;
      assert forall i :: 0 <= i < |ws[1..]| ==> ws[1..][i] == ws[i + 1];
      NoneInserted(ws[1..], stage);
    }
  }

  lemma FirstInsertsNone(ws: seq<Write>, n: nat)
    requires NoInsert(ws)
    ensures NoInsert(First(ws, n))
  {
  }

  /** A list that asks one question at most, in one place. */
  lemma FirstInsertsOne(a: seq<Write>, asked: Stage, b: seq<Write>, stage: Stage, n: nat)
    requires NoInsert(a) && NoInsert(b)
    ensures InsertsOf(First(a + [InsertRequest(asked)] + b, n), stage) == if n > |a| && stage == asked then 1 else 0
  {
    var ask := InsertRequest(asked);
    if n <= |a| {
      assert First(a + [ask] + b, n) == a[..n];
      NoneInserted(a[..n], stage);
    } else {
      var rest := First(b, n - |a| - 1);
      assert First(a + [ask] + b, n) == a + ([ask] + rest);
      InsertsAdd(a, [ask] + rest, stage);
      InsertsAdd([ask], rest, stage);
      NoneInserted(a, stage);
      FirstInsertsNone(b, n - |a| - 1);
      NoneInserted(rest, stage);
      assert [ask][1..] == [];
    }
  }

  lemma MoveInserts(j: Judge, w: World, move: Move)
    requires !move.Ask?
    ensures NoInsert(Make(j, w, move))
  {
    match move
    case RetryLater(stage, attempt) =>
    case EndWithoutLeaf(status) =>
    case Classify(error) => FinalizeInserts(j, w, error);
  }

  lemma FinalizeInserts(j: Judge, w: World, error: bool)
    ensures NoInsert(Finalize(j, w, error))
  {
    if LeafOf(j, w.item).Some? && ItemEligible(j, w.item) {
      var run := if w.item.run.Some? then w.item.run.value else |w.runs|;
      RowWritesAreRows(j.catalog, Decided(j, w.item, run), ManualLock(w.rows, j.catalog), run);
      hide RowWrites, ItemEligible, LeafOf, Decided, ManualLock;
    }
  }

  lemma StoresInsertNone(j: Judge, w: World, key: ReqKey, result: Result)
    ensures NoInsert(StoresFor(j, w, key, result))
  {
  }

  // ---------- the exact condition, as long as no result is lost ----------

  function Last(j: Judge): ReqKey { ReqKey(CapabilityStage, j.maxAttempts) }

  /** JEV's failure of the last allowed attempt of the capability stage is applied, and reaches the next request. */
  predicate JevFailsLast(j: Judge, w: World, e: Event) {
    && (e.Cut? ==> e.writes >= 2)
    && match e.action
       case Arrive(key, result) => Delivered(w, key, result) && result.Failure? && key == Last(j) && Get(w.requests, key).jev
       case Reapply =>
         Recorded(w) && RecordedKey(w) == Last(j) && Get(w.requests, Last(j)).Broken? && Get(w.requests, Last(j)).jev
       case _ => false
  }

  ghost predicate AllWithin(j: Judge, requests: Requests) { forall stage :: |At(requests, stage)| <= j.maxAttempts }

  /** How many requests a result adds. */
  lemma ResultAdds(j: Judge, w: World, key: ReqKey, result: Result, n: nat, stage: Stage)
    requires Inv(j, w, 0) && ValidJudge(j) && Delivered(w, key, result)
    ensures var adds := InsertsOf(First(ApplyResult(j, w, key, result), n), stage);
      && adds <= 1
      && (key.stage.CapabilityStage? && Get(w.requests, key).jev && result.Failure? ==>
            adds == if stage.CapabilityStage? && n >= 2 then 1 else 0)
      && (!(key.stage.CapabilityStage? && Get(w.requests, key).jev && result.Failure?) && adds == 1 ==>
            At(w.requests, stage) == [])
  {
    var close := Close(key, Outcome(w, key, result));
    var closed := Perform(j, w, close);
    var stored := StoredFor(j, closed, key, result);
    var stores := StoresFor(j, closed, key, result);
    ClosingFits(j, w, key, result, 0);
    ResultParts(j, w, key, result);
    StoresInsertNone(j, closed, key, result);
    StagesOf(j, w, 0);
    StageOf(w.requests, j.maxAttempts, key.stage);
    var move := MoveFor(j, stored, key, result);
    assert !key.stage.Complete?;
    MoveMayBeMade(j, closed, stored, key, result);
    assert key.stage.CapabilityStage? && Get(w.requests, key).jev && result.Failure? ==> move == Ask(CapabilityStage);
    hide Inv, StoredFor, MoveFor, ApplyResult, PerformAll, StoresFor, InsertsOf, First, Stores, JevFallsBack;
    if move.Ask? {
      AskedInserts(j, w, closed, stored, key, result, move.stage);
      if NewestLive(At(stored.requests, move.stage)) {
        assert NoInsert([close] + stores + Make(j, stored, move));
        FirstInsertsNone([close] + stores + Make(j, stored, move), n);
        NoneInserted(First([close] + stores + Make(j, stored, move), n), stage);
      } else {
        assert [close] + stores + Make(j, stored, move)
            == [close] + stores + [InsertRequest(move.stage)] + [EnterStage(move.stage)];
        FirstInsertsOne([close] + stores, move.stage, [EnterStage(move.stage)], stage, n);
      }
    } else {
      MoveInserts(j, stored, move);
      FirstInsertsNone([close] + stores + Make(j, stored, move), n);
      NoneInserted(First([close] + stores + Make(j, stored, move), n), stage);
    }
  }

  /** A question of a later stage is its first; only JEV's fallback is not. */
  lemma AskedInserts(j: Judge, w: World, closed: World, stored: World, key: ReqKey, result: Result, asked: Stage)
    requires Ready(j, closed, 0) && Still(closed, stored) && MayMake(j, stored, Ask(asked)) && closed.item.stage == key.stage
    requires Exists(w.requests, key) && key.attempt == |At(w.requests, key.stage)|
    requires closed.requests == w.requests[key.stage := At(w.requests, key.stage)[key.attempt - 1 := Outcome(w, key, result)]]
    ensures Make(j, stored, Ask(asked)) ==
      if NewestLive(At(stored.requests, asked)) then [EnterStage(asked)] else [InsertRequest(asked), EnterStage(asked)]
    ensures asked != key.stage ==> At(stored.requests, asked) == At(w.requests, asked)
    ensures asked != key.stage && !NewestLive(At(stored.requests, asked)) ==> At(w.requests, asked) == []
    ensures asked == key.stage ==>
      result.Failure? && key.stage.CapabilityStage? && Get(w.requests, key).jev && !NewestLive(At(stored.requests, asked))
  {
    EnqueueIs(j, stored, asked, j.maxAttempts);
    if asked != key.stage { assert Ahead(At(closed.requests, asked), 0); }
    hide EnqueueStage, StagesFit;
  }

  lemma ResumeAdds(j: Judge, w: World, n: nat)
    requires Inv(j, w, 0) && ValidJudge(j) && AllWithin(j, w.requests) && Resumes(w.item)
    ensures AllWithin(j, PerformAll(j, w, First(ResumeRetry(w), n)).requests)
  {
    var stage := w.item.stage;
    AskKeepsInv(j, w, stage, 0, n);
    CurrentOf(j, w, 0);
    var t := PerformAll(j, w, First(ResumeRetry(w), n));
    hide Inv, EnqueueStage, PerformAll;
    forall s ensures |At(t.requests, s)| <= j.maxAttempts {
      assert s != stage ==> At(t.requests, s) == At(w.requests, s);
    }
  }

  lemma PassAdds(j: Judge, w: World, pass: Pass, n: nat)
    requires Inv(j, w, 0) && ValidJudge(j) && AllWithin(j, w.requests) && Waits(w.item)
    ensures AllWithin(j, PerformAll(j, w, First(PassWrites(j, w, pass), n)).requests)
  {
    var t := PerformAll(j, w, First(PassWrites(j, w, pass), n));
    PassKeepsInv(j, w, pass, 0, n);
    StagesOf(j, t, 0);
    PassesAskTwoStages(j, w, pass);
    CountsAre(j, w, First(PassWrites(j, w, pass), n), CapabilityStage);
    OnlyOthers(PassWrites(j, w, pass), n, CapabilityStage);
    hide Inv, PassWrites, PerformAll, First, PassLeads;
    forall s ensures |At(t.requests, s)| <= j.maxAttempts {
      StageOf(t.requests, j.maxAttempts, s);
      if !s.CapabilityStage? { BoundOf(j, s, At(t.requests, s), j.maxAttempts); }
    }
  }

  predicate NeverAsks(ws: seq<Write>, stage: Stage) { forall i :: 0 <= i < |ws| ==> ws[i] != InsertRequest(stage) }

  lemma PassesAskTwoStages(j: Judge, w: World, pass: Pass)
    ensures NeverAsks(PassWrites(j, w, pass), CapabilityStage)
  {
    hide PerformAll, HasLiveRequest, Exhausts;
  }

  lemma {:induction false} OnlyOthers(ws: seq<Write>, n: nat, stage: Stage)
    requires NeverAsks(ws, stage)
    ensures InsertsOf(First(ws, n), stage) == 0
    decreases |ws|
  {
    if ws != [] && n > 0 {
      assert ws[0] != InsertRequest(stage);
      assert forall i :: 0 <= i < |ws[1..]| ==> ws[1..][i] == ws[i + 1];
      OnlyOthers(ws[1..], n - 1, stage);
      assert First(ws, n) == [ws[0]] + First(ws[1..], n - 1);
      assert First(ws, n)[1..] == First(ws[1..], n - 1);
    }
  }

  lemma MarkingAddsNone(j: Judge, w: World, key: ReqKey, req: Req, n: nat)
    requires AllWithin(j, w.requests)
    ensures AllWithin(j, PerformAll(j, w, First([Mark(key, req)], n)).requests)
  {
    var ws := [Mark(key, req)];
    FirstInsertsNone(ws, n);
    forall stage ensures |At(PerformAll(j, w, First(ws, n)).requests, stage)| <= j.maxAttempts {
      CountsAre(j, w, First(ws, n), stage);
      NoneInserted(First(ws, n), stage);
    }
    hide PerformAll;
  }

  lemma ResultStaysWithin(j: Judge, w: World, key: ReqKey, result: Result, n: nat)
    requires Inv(j, w, 0) && ValidJudge(j) && Delivered(w, key, result) && AllWithin(j, w.requests)
    ensures var t := PerformAll(j, w, First(ApplyResult(j, w, key, result), n));
      AllWithin(j, t.requests) <==> !(n >= 2 && result.Failure? && key == Last(j) && Get(w.requests, key).jev)
  {
    hide Inv, ApplyResult, PerformAll, First, InsertsOf;
    var ws := ApplyResult(j, w, key, result);
    var t := PerformAll(j, w, First(ws, n));
    CountsAre(j, w, First(ws, n), CapabilityStage);
    ResultAdds(j, w, key, result, n, CapabilityStage);
    if n >= 2 && result.Failure? && key == Last(j) && Get(w.requests, key).jev {
      assert |At(t.requests, CapabilityStage)| == j.maxAttempts + 1;
    } else {
      forall stage ensures |At(t.requests, stage)| <= j.maxAttempts {
        CountsAre(j, w, First(ws, n), stage);
        ResultAdds(j, w, key, result, n, stage);
        assert |At(w.requests, stage)| <= j.maxAttempts;
      }
    }
  }

  /**
   As long as no result was lost, an event takes a stage beyond the allowed attempts if and only if it
   applies JEV's failure of the last one allowed, far enough to queue the next request.
   */
  lemma OnlyJevFailurePassesTheBound(j: Judge, w: World, e: Event)
    requires Inv(j, w, 0) && ValidJudge(j) && AllWithin(j, w.requests)
    ensures AllWithin(j, Next(j, w, e).requests) <==> !JevFailsLast(j, w, e)
  {
    var ws := ActionWrites(j, w, e.action);
    EventIs(j, w, e);
    NoWrites(j, w);
    LastIsEnough(j, w, e);
    hide Inv, PerformAll, ApplyResult, ResumeRetry, PassWrites, Next, First, AllWithin, NoJev;
    FirstIs(ws, Reach(e, ws));
    match e.action
    case Arrive(key, result) => if Delivered(w, key, result) { ResultStaysWithin(j, w, key, result, Reach(e, ws)); }
    case Reapply =>
      if Recorded(w) { ResultStaysWithin(j, w, RecordedKey(w), RecordedResult(Get(w.requests, RecordedKey(w))), Reach(e, ws)); }
    case Resume => if Resumes(w.item) { ResumeAdds(j, w, Reach(e, ws)); } else { NothingToResume(w); }
    case Submit(key) =>
      if Exists(w.requests, key) && Get(w.requests, key).Queued? {
        MarkingAddsNone(j, w, key, Submitted(Get(w.requests, key).jev), Reach(e, ws));
      }
    case TakeJev =>
      if JevMayTake(w) { MarkingAddsNone(j, w, ReqKey(CapabilityStage, |At(w.requests, CapabilityStage)|), Submitted(true), Reach(e, ws)); }
    case Seed(pass) => if MaySeed(w.item) && MayPass(pass) { PassAdds(j, w, pass, Reach(e, ws)); }
  }

  /** A whole result writes two statements at least. */
  lemma LastIsEnough(j: Judge, w: World, e: Event)
    ensures e.Whole? && e.action.Arrive? && Delivered(w, e.action.key, e.action.result) ==>
      |ApplyResult(j, w, e.action.key, e.action.result)| >= 2
    ensures e.Whole? && e.action.Reapply? && Recorded(w) ==> |Reconcile(j, w)| >= 2
  {
    if e.action.Arrive? && Delivered(w, e.action.key, e.action.result) { ResultIsLong(j, w, e.action.key, e.action.result); }
    if e.action.Reapply? && Recorded(w) && Applies(w, RecordedKey(w)) {
      ResultIsLong(j, w, RecordedKey(w), RecordedResult(Get(w.requests, RecordedKey(w))));
    }
    hide ApplyResult;
  }

  lemma ResultIsLong(j: Judge, w: World, key: ReqKey, result: Result)
    requires Applies(w, key)
    ensures |ApplyResult(j, w, key, result)| >= 2
  {
    ResultParts(j, w, key, result);
    hide Stores, StoredFor, MoveFor, ApplyResult, StoresFor, RowWrites, LeafOf, ItemEligible;
  }

  // ---------- runs that get there ----------

  /** A listed product with a clear market, an eligible leaf and capabilities to ask about. */
  function Plain(output: Output, maxAttempts: nat): Judge {
    var profile := Profile(false, true, true, true, true, true, false, false, false, 0);
    Judge((o, s) => profile, o => [Hit(1, 0.9)], (o, h, p) => Some(Leaf(Term(1, None, false), 0.9, true)), (o, h, p) => [],
          (p, h, l) => true, (o, p) => [], Catalog({1}, {}), Gate(0.5, 0.08), 0.5, maxAttempts, true)
  }

  function Fresh(): World {
    World(Item(Pending, ProfileStage, None, None, None, None, None, None, NoRetry, 0), map[], map[], [], None)
  }

  /** Nothing was written to the assignments, and no run recorded. */
  predicate Unrecorded(w: World, t: World) { t.rows == w.rows && t.item.run == w.item.run }

  /** The item asks a first question at `next` after a success at `stage`. */
  lemma Answered(j: Judge, w: World, stage: Stage, next: Stage, output: Output)
    requires w.item.stage == stage && w.item.status.Running? && At(w.requests, stage) == [Queued(false)]
    requires At(w.requests, next) == []
    requires var stored := PerformAll(j, w, Stores(j, w, stage, output)); AfterSuccess(j, stored.item, stage) == Ask(next)
    ensures var item := PerformAll(j, w, Stores(j, w, stage, output)).item; var t := Next(j, w, Whole(Arrive(ReqKey(stage, 1), Success(output))));
      && t.item == item.(stage := next, status := Running, retry := NoRetry, retryAttempt := 0)
      && t.requests == w.requests[stage := [Done(false, output)]][next := [Queued(false)]] && Unrecorded(w, t)
  {
    var key := ReqKey(stage, 1);
    var close := Close(key, Done(false, output));
    var closed := Perform(j, w, close);
    var stores := Stores(j, closed, stage, output);
    var stored := PerformAll(j, closed, stores);
    assert [Queued(false)][0 := Done(false, output)] == [Done(false, output)];
    assert closed.requests == w.requests[stage := [Done(false, output)]] && closed.item == w.item;
    assert At(closed.requests, next) == [];
    assert stores == Stores(j, w, stage, output);
    Single(j, w, close);
    StoringStays(j, closed, stage, output);
    SameItemStored(j, w, closed, stage, output);
    assert EnqueueStage(stored, next) == [InsertRequest(next), EnterStage(next)];
    assert ApplyResult(j, w, key, Success(output)) == [close] + stores + EnqueueStage(stored, next);
    hide ApplyResult, AfterSuccess, Stores, EnqueueStage, Perform;
    Appended(j, w, [close], stores);
    Appended(j, w, [close] + stores, EnqueueStage(stored, next));
    FirstQuestion(j, stored, next);
    hide PerformAll;
  }

  lemma FirstQuestion(j: Judge, w: World, stage: Stage)
    requires At(w.requests, stage) == []
    ensures var t := PerformAll(j, w, [InsertRequest(stage), EnterStage(stage)]);
      && t.item == w.item.(stage := stage, status := Running, retry := NoRetry, retryAttempt := 0)
      && t.requests == w.requests[stage := [Queued(false)]] && Unrecorded(w, t)
  {
    assert [] + [Queued(false)] == [Queued(false)];
    PairOfWrites(j, w, InsertRequest(stage), EnterStage(stage));
  }

  lemma SameItemStored(j: Judge, a: World, b: World, stage: Stage, output: Output)
    requires a.item == b.item
    ensures PerformAll(j, a, Stores(j, a, stage, output)).item == PerformAll(j, b, Stores(j, b, stage, output)).item
  {
    if stage.ProfileStage? {
      var p := j.build(output, a.item.source);
      PairOfWrites(j, a, StoreProfile(p), SetProfile(p));
      PairOfWrites(j, b, StoreProfile(p), SetProfile(p));
    } else if !stage.Complete? {
      Single(j, a, Stores(j, a, stage, output)[0]);
      Single(j, b, Stores(j, b, stage, output)[0]);
    }
  }

  lemma {:induction false} AfterSnoc(j: Judge, w: World, events: seq<Event>, e: Event)
    ensures After(j, w, events + [e]) == Next(j, After(j, w, events), e)
    ensures Lost(j, w, events + [e]) == Lost(j, w, events) + LostBy(After(j, w, events), e)
    decreases |events|
  {
    hide *;
    if events == [] {
      assert [] + [e] == [e] && [e][1..] == [];
      NoRun(j, w);
      NoRun(j, Next(j, w, e));
      RunUnfolds(j, w, [e]);
    } else {
      assert (events + [e])[1..] == events[1..] + [e];
      RunUnfolds(j, w, events + [e]);
      RunUnfolds(j, w, events);
      AfterSnoc(j, Next(j, w, events[0]), events[1..], e);
    }
  }

  function Listed(): Profile { Profile(false, true, true, true, true, true, false, false, false, 0) }

  /** The item has asked its first question at `stage`, and none at a later one. */
  ghost predicate Asking(w: World, stage: Stage) {
    && w.item.stage == stage && w.item.status.Running? && At(w.requests, stage) == [Queued(false)]
    && forall s :: Rank(s) < Rank(stage) ==> At(w.requests, s) == []
  }

  /** A new item after its whole capture. */
  ghost function Captured(j: Judge, text: Text): World { Born(j, Fresh(), Captures(text), 3) }

  /** A whole capture of an item that has asked nothing yet. */
  lemma CaptureAsks(j: Judge, w: World, text: Text)
    requires forall stage :: At(w.requests, stage) == []
    ensures var t := PerformAll(j, w, CaptureSource(w, text)); Asking(t, ProfileStage) && Unrecorded(w, t)
  {
    var store := SetSource(text);
    assert EnqueueStage(w, ProfileStage) == [InsertRequest(ProfileStage), EnterStage(ProfileStage)];
    Single(j, w, store);
    Appended(j, w, [store], EnqueueStage(w, ProfileStage));
    var x := Perform(j, w, store);
    PairOfWrites(j, x, InsertRequest(ProfileStage), EnterStage(ProfileStage));
    var t := Perform(j, Perform(j, x, InsertRequest(ProfileStage)), EnterStage(ProfileStage));
    assert [] + [Queued(false)] == [Queued(false)];
    assert forall stage :: stage != ProfileStage ==> At(t.requests, stage) == At(w.requests, stage);
    assert Asking(t, ProfileStage);
    hide PerformAll;
  }

  lemma FreshAsks(j: Judge, text: Text)
    ensures New(Fresh()) && Asking(Captured(j, text), ProfileStage)
  {
    CaptureAsks(j, Fresh(), text);
    FirstIs(CaptureSource(Fresh(), text), 3);
    assert EnqueueStage(Fresh(), ProfileStage) == [InsertRequest(ProfileStage), EnterStage(ProfileStage)];
    hide PerformAll;
  }

  lemma ProfileAnswered(output: Output, max: nat, w: World)
    requires Asking(w, ProfileStage)
    ensures var t := Next(Plain(output, max), w, Whole(Arrive(ReqKey(ProfileStage, 1), Success(output))));
      Asking(t, L1) && t.item.profile == Some(Listed()) && Unrecorded(w, t)
  {
    var j := Plain(output, max);
    var p := j.build(output, w.item.source);
    PairOfWrites(j, w, StoreProfile(p), SetProfile(p));
    assert Stores(j, w, ProfileStage, output) == [StoreProfile(p), SetProfile(p)];
    hide PerformAll, EnqueueStage, Next;
    Answered(j, w, ProfileStage, L1, output);
  }

  lemma MarketAnswered(output: Output, max: nat, w: World)
    requires Asking(w, L1) && w.item.profile == Some(Listed())
    ensures var t := Next(Plain(output, max), w, Whole(Arrive(ReqKey(L1, 1), Success(output))));
      Asking(t, LeafStage) && t.item.profile == Some(Listed()) && t.item.l1 == Some(output) && Unrecorded(w, t)
  {
    var j := Plain(output, max);
    Single(j, w, SetL1(output));
    assert Stores(j, w, L1, output) == [SetL1(output)];
    assert HitsOf(j, w.item.(l1 := Some(output))) == [Hit(1, 0.9)];
    hide PerformAll, EnqueueStage, Next;
    Answered(j, w, L1, LeafStage, output);
  }

  lemma LeafAnswered(output: Output, max: nat, w: World)
    requires Asking(w, LeafStage) && w.item.profile == Some(Listed()) && w.item.l1 == Some(output)
    ensures var t := Next(Plain(output, max), w, Whole(Arrive(ReqKey(LeafStage, 1), Success(output))));
      Asking(t, CapabilityStage) && Judged(t.item, output) && Unrecorded(w, t)
  {
    var j, item := Plain(output, max), w.item.(leaf := Some(output));
    Single(j, w, SetLeaf(output));
    assert Stores(j, w, LeafStage, output) == [SetLeaf(output)];
    assert HitsOf(j, item) == [Hit(1, 0.9)] && LeafOf(j, item) == Some(Leaf(Term(1, None, false), 0.9, true)) && ProfileOf(item) == Listed();
    assert ItemEligible(j, item) by {
      assert [Hit(1, 0.9)][1..] == [];
    }
    hide PerformAll, EnqueueStage, Next, ItemEligible, LeafOf, HitsOf;
    Answered(j, w, LeafStage, CapabilityStage, output);
  }

  lemma WholeLoses(e: Event)
    ensures e.Whole? ==> forall w :: LostBy(w, e) == 0
  {
  }

  /** Profile, market and leaf are there. */
  predicate Judged(item: Item, output: Output) {
    item.profile == Some(Listed()) && item.l1 == Some(output) && item.leaf == Some(output)
  }

  /** Answered at once at every stage, the item comes to ask for its capabilities. */
  lemma ReachesCapability(output: Output, max: nat, w: World) returns (events: seq<Event>)
    requires Asking(w, ProfileStage)
    ensures var j := Plain(output, max); var t := After(j, w, events);
      Asking(t, CapabilityStage) && Judged(t.item, output) && Unrecorded(w, t) && Lost(j, w, events) == 0
  {
    var j := Plain(output, max);
    var b := Whole(Arrive(ReqKey(ProfileStage, 1), Success(output)));
    var c, d := Whole(Arrive(ReqKey(L1, 1), Success(output))), Whole(Arrive(ReqKey(LeafStage, 1), Success(output)));
    NoRun(j, w);
    WholeLoses(b);
    WholeLoses(c);
    WholeLoses(d);
    hide After, Next, Lost, Plain, Asking, Judged, LostBy;
    ProfileAnswered(output, max, w);
    AfterSnoc(j, w, [], b);
    MarketAnswered(output, max, After(j, w, [] + [b]));
    AfterSnoc(j, w, [] + [b], c);
    LeafAnswered(output, max, After(j, w, [] + [b] + [c]));
    AfterSnoc(j, w, [] + [b] + [c], d);
    events := [] + [b] + [c] + [d];
  }

  /** The `n`-th attempt of the stage waits; those before it failed, none of them JEV's. */
  ghost predicate Trying(w: World, stage: Stage, n: nat) {
    var rs := At(w.requests, stage);
    && w.item.stage == stage && w.item.status.Running? && 1 <= n == |rs| && rs[n - 1] == Queued(false)
    && forall i :: 0 <= i < n - 1 ==> rs[i] == Broken(false, true)
  }

  /** All attempts so far failed, the last one counted is `a`, and the next one is due. */
  ghost predicate Retrying(w: World, stage: Stage, a: nat, n: nat) {
    var rs := At(w.requests, stage);
    && w.item.stage == stage && !stage.Complete? && Resumes(w.item) && w.item.retryAttempt == a && n == |rs|
    && forall i :: 0 <= i < n ==> rs[i] == Broken(false, true)
  }

  lemma FailsOnce(j: Judge, w: World, stage: Stage, n: nat)
    requires Trying(w, stage, n) && n < j.maxAttempts && !stage.Complete?
    ensures Retrying(Next(j, w, Whole(Arrive(ReqKey(stage, n), Failure(true)))), stage, n, n)
  {
    var key := ReqKey(stage, n);
    var close := Close(key, Broken(false, true));
    assert ApplyResult(j, w, key, Failure(true)) == [close] + [ScheduleRetry(stage, n)];
    assert [close] + [ScheduleRetry(stage, n)] == [close, ScheduleRetry(stage, n)];
    PairOfWrites(j, w, close, ScheduleRetry(stage, n));
  }

  lemma TriesAgain(j: Judge, w: World, stage: Stage, a: nat, n: nat)
    requires Retrying(w, stage, a, n)
    ensures Trying(Next(j, w, Whole(Resume)), stage, n + 1)
  {
    assert ResumeRetry(w) == [InsertRequest(stage), EnterStage(stage)];
    PairOfWrites(j, w, InsertRequest(stage), EnterStage(stage));
  }

  /** Failing and resuming, the last allowed attempt is reached. */
  lemma {:induction false} ReachesAttempt(j: Judge, w: World, stage: Stage, n: nat, goal: nat) returns (events: seq<Event>)
    requires Trying(w, stage, n) && n <= goal <= j.maxAttempts && !stage.Complete?
    ensures Trying(After(j, w, events), stage, goal) && Lost(j, w, events) == 0
    decreases goal - n
  {
    hide *;
    events := [];
    NoRun(j, w);
    if n < goal {
      var fail := Whole(Arrive(ReqKey(stage, n), Failure(true)));
      FailsOnce(j, w, stage, n);
      TriesAgain(j, Next(j, w, fail), stage, n, n);
      var rest := ReachesAttempt(j, Next(j, Next(j, w, fail), Whole(Resume)), stage, n + 1, goal);
      TwoFirst(j, w, fail, Whole(Resume), rest);
      events := [fail, Whole(Resume)] + rest;
    }
  }

  lemma TwoFirst(j: Judge, w: World, a: Event, b: Event, rest: seq<Event>)
    ensures var two := Next(j, Next(j, w, a), b);
      && After(j, w, [a, b] + rest) == After(j, two, rest)
      && Lost(j, w, [a, b] + rest) == LostBy(w, a) + LostBy(Next(j, w, a), b) + Lost(j, two, rest)
    ensures a.Whole? ==> LostBy(w, a) == 0
    ensures b.Whole? ==> LostBy(Next(j, w, a), b) == 0
  {
    assert ([a, b] + rest)[1..] == [b] + rest && ([b] + rest)[1..] == rest;
    RunUnfolds(j, w, [a, b] + rest);
    RunUnfolds(j, Next(j, w, a), [b] + rest);
    hide Next, After, Lost;
  }

  lemma {:induction false} Joined(j: Judge, w: World, a: seq<Event>, b: seq<Event>)
    ensures After(j, w, a + b) == After(j, After(j, w, a), b)
    ensures Lost(j, w, a + b) == Lost(j, w, a) + Lost(j, After(j, w, a), b)
    decreases |a|
  {
    hide *;
    if a == [] {
      assert a + b == b;
      NoRun(j, w);
    } else {
      assert (a + b)[1..] == a[1..] + b;
      RunUnfolds(j, w, a);
      RunUnfolds(j, w, a + b);
      Joined(j, Next(j, w, a[0]), a[1..], b);
    }
  }

  lemma JevTakes(j: Judge, w: World, n: nat)
    requires Trying(w, CapabilityStage, n)
    ensures var t := Next(j, w, Whole(TakeJev));
      && t.item == w.item && At(t.requests, CapabilityStage) == At(w.requests, CapabilityStage)[n - 1 := Submitted(true)]
  {
    Single(j, w, Mark(ReqKey(CapabilityStage, n), Submitted(true)));
  }

  lemma JevFails(j: Judge, w: World, n: nat)
    requires w.item.stage.CapabilityStage? && w.item.status.Running? && 1 <= n == |At(w.requests, CapabilityStage)|
    requires At(w.requests, CapabilityStage)[n - 1] == Submitted(true)
    requires forall i :: 0 <= i < n - 1 ==> At(w.requests, CapabilityStage)[i].Broken?
    ensures |At(Next(j, w, Whole(Arrive(ReqKey(CapabilityStage, n), Failure(true)))).requests, CapabilityStage)| == n + 1
  {
    var key := ReqKey(CapabilityStage, n);
    var close := Close(key, Broken(true, true));
    var closed := Perform(j, w, close);
    assert !HasLiveRequest(closed.requests, CapabilityStage);
    var ask, enter := InsertRequest(CapabilityStage), EnterStage(CapabilityStage);
    assert ApplyResult(j, w, key, Failure(true)) == [close] + [ask, enter];
    Single(j, w, close);
    Appended(j, w, [close], [ask, enter]);
    PairOfWrites(j, closed, ask, enter);
  }

  /** For every allowed number of attempts there is a run, losing nothing, in which the capability stage gets one more. */
  lemma ExtraRequestIsReached(output: Output, text: Text, max: nat) returns (events: seq<Event>)
    requires ValidJudge(Plain(output, max))
    ensures var j := Plain(output, max); var b := Captured(j, text);
      && New(Fresh()) && Lost(j, b, events) == 0
      && |At(After(j, b, events).requests, CapabilityStage)| == max + 1
  {
    var j := Plain(output, max);
    var w := Captured(j, text);
    assert j.maxAttempts == max && max >= 1;
    FreshAsks(j, text);
    events := ReachesCapability(output, max, w);
    var a := After(j, w, events);
    AskingIsTrying(a, CapabilityStage);
    hide *;
    var more := ReachesAttempt(j, a, CapabilityStage, 1, max);
    var b := After(j, a, more);
    JevTakes(j, b, max);
    TryingIs(b, CapabilityStage, max);
    var c := Next(j, b, Whole(TakeJev));
    JevFails(j, c, max);
    var two := [Whole(TakeJev), Whole(Arrive(ReqKey(CapabilityStage, max), Failure(true)))];
    TwoFirst(j, b, two[0], two[1], []);
    NoRun(j, Next(j, c, two[1]));
    assert two + [] == two;
    Joined(j, a, more, two);
    Joined(j, w, events, more + two);
    events := events + (more + two);
  }

  lemma TryingIs(w: World, stage: Stage, n: nat)
    requires Trying(w, stage, n)
    ensures w.item.stage == stage && w.item.status.Running? && 1 <= n == |At(w.requests, stage)|
    ensures forall i :: 0 <= i < n - 1 ==> At(w.requests, stage)[i].Broken?
  {
  }

  // ---------- lost failures ----------

  /** A resumption cut behind its request. */
  function HalfResumed(): Event { Cut(Resume, 1) }

  /** The failure of attempt `n`, cut behind its recording. */
  function HalfFailed(stage: Stage, n: nat): Event { Cut(Arrive(ReqKey(stage, n), Failure(true)), 1) }

  /** A resumption cut behind its request, and that request's failure cut behind its recording: one attempt, not counted. */
  lemma LosesOne(j: Judge, w: World, stage: Stage, a: nat, n: nat)
    requires Retrying(w, stage, a, n)
    ensures var x := Next(j, w, HalfResumed());
      && Retrying(Next(j, x, HalfFailed(stage, n + 1)), stage, a, n + 1)
      && LostBy(w, HalfResumed()) == 0 && LostBy(x, HalfFailed(stage, n + 1)) == 1
  {
    var ask := InsertRequest(stage);
    assert ResumeRetry(w) == [ask, EnterStage(stage)];
    assert [ask, EnterStage(stage)][..1] == [ask];
    Single(j, w, ask);
    var x := Perform(j, w, ask);
    var key := ReqKey(stage, n + 1);
    var close := Close(key, Broken(false, true));
    assert Delivered(x, key, Failure(true));
    ResultParts(j, x, key, Failure(true));
    var ws := ApplyResult(j, x, key, Failure(true));
    assert ws[0] == close;
    ResultIsLong(j, x, key, Failure(true));
    assert ws[..1] == [close];
    Single(j, x, close);
    hide ApplyResult, PerformAll, MoveFor, StoredFor;
  }

  lemma {:induction false} LosesMany(j: Judge, w: World, stage: Stage, a: nat, n: nat, c: nat) returns (events: seq<Event>)
    requires Retrying(w, stage, a, n)
    ensures Retrying(After(j, w, events), stage, a, n + c) && Lost(j, w, events) == c
    decreases c
  {
    hide *;
    events := [];
    NoRun(j, w);
    if c > 0 {
      LosesOne(j, w, stage, a, n);
      var x := Next(j, w, HalfResumed());
      var rest := LosesMany(j, Next(j, x, HalfFailed(stage, n + 1)), stage, a, n + 1, c - 1);
      TwoFirst(j, w, HalfResumed(), HalfFailed(stage, n + 1), rest);
      events := [HalfResumed(), HalfFailed(stage, n + 1)] + rest;
    }
  }

  lemma PlainMax(output: Output, max: nat)
    ensures Plain(output, max).maxAttempts == max
  {
  }

  lemma AskingIsTrying(w: World, stage: Stage)
    requires Asking(w, stage)
    ensures Trying(w, stage, 1)
  {
  }

  lemma TryingHas(w: World, stage: Stage, n: nat)
    requires Trying(w, stage, n)
    ensures |At(w.requests, stage)| == n
  {
  }

  /** Every lost failure costs one request more: the bound of RequestsStayBounded is reached for any number of them. */
  lemma LostFailuresPassTheBound(output: Output, text: Text, max: nat, lost: nat) returns (events: seq<Event>)
    requires ValidJudge(Plain(output, max)) && max >= 2
    ensures var j := Plain(output, max); var b := Captured(j, text);
      New(Fresh()) && Lost(j, b, events) == lost && |At(After(j, b, events).requests, ProfileStage)| == max + lost
  {
    hide *;
    var j := Plain(output, max);
    var w := Captured(j, text);
    PlainMax(output, max);
    FreshAsks(j, text);
    AskingIsTrying(w, ProfileStage);
    events := ReachesAttempt(j, w, ProfileStage, 1, max - 1);
    var a := After(j, w, events);
    var fail := Whole(Arrive(ReqKey(ProfileStage, max - 1), Failure(true)));
    FailsOnce(j, a, ProfileStage, max - 1);
    AfterSnoc(j, w, events, fail);
    WholeLoses(fail);
    events := events + [fail];
    var b := After(j, w, events);
    var more := LosesMany(j, b, ProfileStage, max - 1, max - 1, lost);
    Joined(j, w, events, more);
    var c := After(j, b, more);
    TriesAgain(j, c, ProfileStage, max - 1, max - 1 + lost);
    TryingHas(Next(j, c, Whole(Resume)), ProfileStage, max + lost);
    AfterSnoc(j, w, events + more, Whole(Resume));
    WholeLoses(Whole(Resume));
    events := events + more + [Whole(Resume)];
  }
}

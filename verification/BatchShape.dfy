/** What an item and its requests look like between events, wherever an event was cut short. */
module BatchShape {
  import opened BatchItems
  import opened BatchWrites

  /** What happens to an item once the pass that created it is over. `Reapply` is reconcile_recorded_results. */
  datatype Action =
    | Arrive(key: ReqKey, result: Result)
    | Reapply
    | Resume
    | Submit(key: ReqKey)
    | TakeJev
    | Seed(pass: Pass)

  /** An action runs to its end, or a crash leaves so many of its writes. */
  datatype Event = Whole(action: Action) | Cut(action: Action, writes: nat)

  /** No request of the list was ever JEV's. */
  predicate NoJev(rs: seq<Req>) { forall i :: 0 <= i < |rs| ==> !rs[i].jev }

  predicate JevMayTake(w: World) {
    var rs := At(w.requests, CapabilityStage);
    w.item.stage.CapabilityStage? && w.item.status.Running? && rs != [] && rs[|rs| - 1] == Queued(false) && NoJev(rs)
  }

  /** A result is delivered for the first time, or once more as it was. */
  predicate Delivered(w: World, key: ReqKey, result: Result) {
    Applies(w, key) && (Get(w.requests, key).Open() || RecordedResult(Get(w.requests, key)) == result)
  }

  /** Only a source retry is selected again; an item that is there is not new. */
  predicate MaySeed(item: Item) { item.status.Pending? && item.retry.SourceRetry? }

  /** What an action writes; one that does not fit writes nothing. */
  ghost function ActionWrites(j: Judge, w: World, a: Action): seq<Write> {
    match a
    case Arrive(key, result) => if Delivered(w, key, result) then ApplyResult(j, w, key, result) else []
    case Reapply => Reconcile(j, w)
    case Resume => ResumeRetry(w)
    case Submit(key) =>
      if Exists(w.requests, key) && Get(w.requests, key).Queued? then [Mark(key, Submitted(Get(w.requests, key).jev))] else []
    case TakeJev =>
      if JevMayTake(w) then [Mark(ReqKey(CapabilityStage, |At(w.requests, CapabilityStage)|), Submitted(true))] else []
    case Seed(pass) => if MaySeed(w.item) && MayPass(pass) then PassWrites(j, w, pass) else []
  }

  ghost function Writes(j: Judge, w: World, e: Event): seq<Write> {
    match e
    case Whole(a) => ActionWrites(j, w, a)
    case Cut(a, n) => First(ActionWrites(j, w, a), n)
  }

  ghost function Next(j: Judge, w: World, e: Event): World { PerformAll(j, w, Writes(j, w, e)) }

  // ---------- the shape ----------

  function Rank(stage: Stage): nat {
    match stage
    case ProfileStage => 6 case L1 => 5 case L1Escalation => 4 case LeafStage => 3 case LeafEscalation => 2
    case CapabilityStage => 1 case Complete => 0
  }

  /** All attempts but the newest have failed. */
  predicate Serial(rs: seq<Req>) { forall i :: 0 <= i < |rs| - 1 ==> rs[i].Broken? }

  /** JEV takes at most one attempt, and only of the capability stage. */
  predicate OneJev(stage: Stage, rs: seq<Req>) {
    && (stage.CapabilityStage? || NoJev(rs))
    && forall a, b :: 0 <= a < b < |rs| ==> !(rs[a].jev && rs[b].jev)
  }

  /** One more than the bound only behind JEV's. */
  predicate Bounded(rs: seq<Req>, bound: nat) {
    |rs| <= bound || (|rs| == bound + 1 && |rs| >= 2 && rs[|rs| - 2].jev)
  }

  predicate StageFits(stage: Stage, rs: seq<Req>, bound: nat) { Serial(rs) && OneJev(stage, rs) && Bounded(rs, bound) }

  ghost predicate StagesFit(requests: Requests, bound: nat) { forall stage :: StageFits(stage, At(requests, stage), bound) }

  predicate NewestOpen(rs: seq<Req>) { rs != [] && rs[|rs| - 1].Open() }

  predicate NewestLive(rs: seq<Req>) { rs != [] && Blocks(rs[|rs| - 1]) }

  /** The item waits for its source, or was left behind before it asked anything. */
  predicate Waits(item: Item) { item.status.Pending? && !item.retry.ModelRetry? }

  predicate Resumes(item: Item) { item.status.Pending? && item.retry.ModelRetry? }

  /** Requests of a stage the item has not entered yet: at most one beside those whose failure was lost. */
  predicate Ahead(rs: seq<Req>, lost: nat) { |rs| <= lost + if NewestOpen(rs) then 1 else 0 }

  ghost predicate AllAhead(w: World, lost: nat) {
    forall stage :: Rank(stage) < Rank(w.item.stage) || Waits(w.item) ==> Ahead(At(w.requests, stage), lost)
  }

  /** The requests of the item's own stage follow its status. */
  predicate CurrentFits(item: Item, rs: seq<Req>, max: nat, lost: nat) {
    match item.status
    case Running => rs != [] && !item.stage.Complete? && item.retry.NoRetry? && item.retryAttempt == 0
    case Pending =>
      if item.retry.ModelRetry? then
        && 1 <= item.retryAttempt < max && !item.stage.Complete?
        && item.retryAttempt <= |rs| <= item.retryAttempt + lost + (if NewestOpen(rs) then 1 else 0)
        && (|rs| == item.retryAttempt ==> rs[|rs| - 1].Broken?)
      else item.stage.ProfileStage? || item.stage.L1?
    case _ => true
  }

  /** `lost` counts the results whose recording on a waiting item was cut short. */
  ghost predicate Inv(j: Judge, w: World, lost: nat) {
    && StagesFit(w.requests, j.maxAttempts + lost)
    && CurrentFits(w.item, At(w.requests, w.item.stage), j.maxAttempts, lost)
    && (!Terminal(w.item.status) ==> AllAhead(w, lost))
  }

  lemma MoreLost(j: Judge, w: World, lost: nat)
    requires Inv(j, w, lost)
    ensures Inv(j, w, lost + 1)
  {
    forall stage ensures StageFits(stage, At(w.requests, stage), j.maxAttempts + lost + 1) {
      assert StageFits(stage, At(w.requests, stage), j.maxAttempts + lost);
    }
    forall stage | !Terminal(w.item.status) && (Rank(stage) < Rank(w.item.stage) || Waits(w.item))
      ensures Ahead(At(w.requests, stage), lost + 1)
    {
      assert Ahead(At(w.requests, stage), lost);
    }
  }

  lemma StillFits(j: Judge, w: World, t: World, lost: nat)
    requires Inv(j, w, lost) && Still(w, t)
    ensures Inv(j, t, lost)
  {
    forall stage | !Terminal(t.item.status) && (Rank(stage) < Rank(t.item.stage) || Waits(t.item))
      ensures Ahead(At(t.requests, stage), lost)
    {
      assert Ahead(At(w.requests, stage), lost);
    }
  }

  lemma StageOf(requests: Requests, bound: nat, stage: Stage)
    requires StagesFit(requests, bound)
    ensures StageFits(stage, At(requests, stage), bound)
  {
  }

  lemma LiveIsNewest(requests: Requests, stage: Stage)
    requires Serial(At(requests, stage))
    ensures HasLiveRequest(requests, stage) <==> NewestLive(At(requests, stage))
  {
    var rs := At(requests, stage);
    if NewestLive(rs) { assert Blocks(rs[|rs| - 1]); }
  }

  // ---------- asking ----------

  /** JEV's attempt failed, and the stage is asked once more. */
  predicate JevFallsBack(w: World, stage: Stage) {
    var rs := At(w.requests, stage);
    stage.CapabilityStage? && w.item.stage == stage && rs != [] && rs[|rs| - 1].jev && rs[|rs| - 1].Broken?
  }

  predicate MayAsk(w: World, stage: Stage) {
    || 0 < Rank(stage) < Rank(w.item.stage)
    || JevFallsBack(w, stage)
    || (Resumes(w.item) && stage == w.item.stage)
    || (Waits(w.item) && (stage.ProfileStage? || stage.L1?))
  }

  function WithRequest(requests: Requests, stage: Stage): Requests { requests[stage := At(requests, stage) + [Queued(false)]] }

  lemma OneMoreFits(stage: Stage, rs: seq<Req>, bound: nat)
    requires StageFits(stage, rs, bound) && !NewestLive(rs)
    requires |rs| < bound || (|rs| == bound && rs != [] && rs[|rs| - 1].jev)
    ensures StageFits(stage, rs + [Queued(false)], bound)
  {
  }

  lemma OneMoreStagesFit(requests: Requests, stage: Stage, bound: nat)
    requires StagesFit(requests, bound) && !NewestLive(At(requests, stage))
    requires var rs := At(requests, stage); |rs| < bound || (|rs| == bound && rs != [] && rs[|rs| - 1].jev)
    ensures StagesFit(WithRequest(requests, stage), bound)
  {
    var more := WithRequest(requests, stage);
    forall s ensures StageFits(s, At(more, s), bound) {
      StageOf(requests, bound, s);
      if s == stage { OneMoreFits(stage, At(requests, stage), bound); }
    }
  }

  /** There is room for the request that may be asked. */
  lemma RoomToAsk(j: Judge, w: World, stage: Stage, lost: nat)
    requires Inv(j, w, lost) && ValidJudge(j) && !Terminal(w.item.status) && MayAsk(w, stage) && !NewestLive(At(w.requests, stage))
    ensures var rs := At(w.requests, stage); |rs| < j.maxAttempts + lost || (|rs| == j.maxAttempts + lost && rs != [] && rs[|rs| - 1].jev)
  {
    StageOf(w.requests, j.maxAttempts + lost, stage);
    if Rank(stage) < Rank(w.item.stage) || Waits(w.item) { assert Ahead(At(w.requests, stage), lost); }
  }

  lemma InsertKeepsInv(j: Judge, w: World, stage: Stage, lost: nat)
    requires Inv(j, w, lost) && ValidJudge(j) && !Terminal(w.item.status) && MayAsk(w, stage) && !NewestLive(At(w.requests, stage))
    ensures var t := Perform(j, w, InsertRequest(stage));
      && Inv(j, t, lost) && t.item == w.item && NewestOpen(At(t.requests, stage))
      && |At(t.requests, stage)| == |At(w.requests, stage)| + 1
  {
    var t := Perform(j, w, InsertRequest(stage));
    RoomToAsk(j, w, stage, lost);
    OneMoreStagesFit(w.requests, stage, j.maxAttempts + lost);
    forall s | Rank(s) < Rank(t.item.stage) || Waits(t.item) ensures Ahead(At(t.requests, s), lost) {
      assert Ahead(At(w.requests, s), lost);
    }
    hide StagesFit, AllAhead;
    assert stage != w.item.stage ==> At(t.requests, w.item.stage) == At(w.requests, w.item.stage);
  }

  lemma EnterKeepsInv(j: Judge, w: World, stage: Stage, lost: nat)
    requires StagesFit(w.requests, j.maxAttempts + lost) && At(w.requests, stage) != [] && !stage.Complete?
    requires forall s :: Rank(s) < Rank(stage) ==> Ahead(At(w.requests, s), lost)
    ensures var t := Perform(j, w, EnterStage(stage));
      && Inv(j, t, lost) && t.item.status.Running? && t.item.stage == stage && t.requests == w.requests
  {
  }

  lemma EnqueueIs(j: Judge, w: World, stage: Stage, lost: nat)
    requires StagesFit(w.requests, lost)
    ensures EnqueueStage(w, stage) ==
      if NewestLive(At(w.requests, stage)) then [EnterStage(stage)] else [InsertRequest(stage), EnterStage(stage)]
  {
    StageOf(w.requests, lost, stage);
    LiveIsNewest(w.requests, stage);
  }

  /** Asked, the item runs at the stage; cut short, it stands where it stood, perhaps with its request queued. */
  lemma AskKeepsInv(j: Judge, w: World, stage: Stage, lost: nat, n: nat)
    requires Inv(j, w, lost) && ValidJudge(j) && !Terminal(w.item.status) && MayAsk(w, stage)
    ensures var ws := EnqueueStage(w, stage); var t := PerformAll(j, w, First(ws, n));
      && Inv(j, t, lost)
      && (n < |ws| ==> t.item == w.item)
      && (n >= |ws| ==> t.item.status.Running? && t.item.stage == stage)
      && (forall s :: s != stage ==> At(t.requests, s) == At(w.requests, s))
      && (At(t.requests, stage) == At(w.requests, stage) || At(t.requests, stage) == At(w.requests, stage) + [Queued(false)])
      && (n >= |ws| && !NewestLive(At(w.requests, stage)) ==> At(t.requests, stage) == At(w.requests, stage) + [Queued(false)])
      && (NewestLive(At(w.requests, stage)) ==> t.requests == w.requests)
  {
    EnqueueIs(j, w, stage, j.maxAttempts + lost);
    NoWrites(j, w);
    var ws := EnqueueStage(w, stage);
    FirstIs(ws, n);
    LowerAhead(w, stage, lost);
    hide EnqueueStage;
    if NewestLive(At(w.requests, stage)) {
      Single(j, w, EnterStage(stage));
      EnterKeepsInv(j, w, stage, lost);
    } else {
      InsertKeepsInv(j, w, stage, lost);
      var next := Perform(j, w, InsertRequest(stage));
      assert ws[..1] == [InsertRequest(stage)];
      Single(j, w, InsertRequest(stage));
      PairOfWrites(j, w, InsertRequest(stage), EnterStage(stage));
      LowerAheadOf(next, w, stage, lost);
      EnterKeepsInv(j, next, stage, lost);
    }
  }

  lemma LowerAhead(w: World, stage: Stage, lost: nat)
    requires AllAhead(w, lost) && MayAsk(w, stage)
    ensures forall s :: Rank(s) < Rank(stage) ==> Ahead(At(w.requests, s), lost)
  {
  }

  lemma LowerAheadOf(next: World, w: World, stage: Stage, lost: nat)
    requires forall s :: s != stage ==> At(next.requests, s) == At(w.requests, s)
    requires forall s :: Rank(s) < Rank(stage) ==> Ahead(At(w.requests, s), lost)
    ensures forall s :: Rank(s) < Rank(stage) ==> Ahead(At(next.requests, s), lost)
  {
  }
}

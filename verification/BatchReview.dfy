/** What becomes of an item that was recovered from upstream metadata. */
module BatchReview {
  import opened Prelude
  import opened Assignments
  import opened Acceptance
  import opened BatchItems
  import opened BatchWrites
  import opened BatchShape
  import opened BatchEvents
  import opened BatchProgress
  import opened BatchLimits
  import BatchRecovery

  /** Past the profile stage with an upstream profile; if ended, then in review. */
  predicate ForReview(item: Item) {
    && item.profile.Some? && item.profile.value.upstream && !item.stage.ProfileStage?
    && (Terminal(item.status) ==> item.status.NeedsReview?)
  }

  /** Writes no assignment, replaces no profile, and ends nothing but in review. */
  predicate Harmless(w: Write) {
    match w
    case WriteRow(_) => false
    case SetProfile(_) => false
    case Recover(_) => false
    case ScheduleSource(_) => false
    case EnterStage(stage) => !stage.ProfileStage?
    case Finish(status, _) => status.NeedsReview?
    case _ => true
  }

  ghost predicate AllHarmless(ws: seq<Write>) { forall i :: 0 <= i < |ws| ==> Harmless(ws[i]) }

  lemma {:induction false} HarmlessKeeps(j: Judge, w: World, ws: seq<Write>)
    requires ForReview(w.item) && AllHarmless(ws)
    ensures var t := PerformAll(j, w, ws); ForReview(t.item) && t.rows == w.rows && (!MaySeed(w.item) ==> !MaySeed(t.item))
    decreases |ws|
  {
    if ws != [] {
      assert Harmless(ws[0]);
      assert forall i :: 0 <= i < |ws[1..]| ==> ws[1..][i] == ws[i + 1];
      HarmlessKeeps(j, Perform(j, w, ws[0]), ws[1..]);
    }
  }

  lemma UpstreamIsNeverEligible(j: Judge, item: Item)
    requires ForReview(item)
    ensures !ItemEligible(j, item)
  {
  }

  lemma MovesAreHarmless(j: Judge, w: World, stage: Stage)
    requires ForReview(w.item) && !stage.ProfileStage?
    ensures AllHarmless(Make(j, w, AfterSuccess(j, w.item, stage)))
  {
    UpstreamIsNeverEligible(j, w.item);
    hide ItemEligible, ShouldEscalateL1, ShouldEscalateLeaf, HitsOf, LeafOf;
  }

  lemma FailureIsHarmless(j: Judge, w: World, key: ReqKey, jev: bool, retryable: bool)
    requires ForReview(w.item) && !key.stage.ProfileStage?
    ensures AllHarmless(Make(j, w, AfterFailure(j, key, jev, retryable)))
  {
    UpstreamIsNeverEligible(j, w.item);
    hide ItemEligible;
  }

  lemma ArrivalIsHarmless(j: Judge, w: World, key: ReqKey, result: Result)
    requires ForReview(w.item)
    ensures AllHarmless(ApplyResult(j, w, key, result))
  {
    if Applies(w, key) {
      var close := Close(key, Outcome(w, key, result));
      var closed := Perform(j, w, close);
      match result {
        case Failure(retryable) => FailureIsHarmless(j, closed, key, Get(w.requests, key).jev, retryable);
        case Success(output) =>
          var stores := Stores(j, closed, key.stage, output);
          assert AllHarmless(stores);
          HarmlessKeeps(j, closed, stores);
          MovesAreHarmless(j, PerformAll(j, closed, stores), key.stage);
      }
    }
  }

  lemma FirstIsHarmless(ws: seq<Write>, n: nat)
    requires AllHarmless(ws)
    ensures AllHarmless(First(ws, n))
  {
  }

  /** Only a source retry can do harm: it captures the homepage again. */
  lemma EventIsHarmless(j: Judge, w: World, e: Event)
    requires ForReview(w.item) && !MaySeed(w.item)
    ensures AllHarmless(Writes(j, w, e))
  {
    if e.action.Arrive? { ArrivalIsHarmless(j, w, e.action.key, e.action.result); }
    if e.action.Reapply? && Recorded(w) {
      ArrivalIsHarmless(j, w, RecordedKey(w), RecordedResult(Get(w.requests, RecordedKey(w))));
    }
    hide ApplyResult, PassWrites;
    assert AllHarmless(ActionWrites(j, w, e.action));
    if e.Cut? { FirstIsHarmless(ActionWrites(j, w, e.action), e.writes); }
  }

  /** Without a source retry ahead of it the item writes no assignment, on any path, and can only end in review. */
  lemma {:induction false} HeldForReview(j: Judge, w: World, events: seq<Event>)
    requires ForReview(w.item) && !MaySeed(w.item)
    ensures var t := After(j, w, events); ForReview(t.item) && t.rows == w.rows && !MaySeed(t.item)
    decreases |events|
  {
    if events != [] {
      EventIsHarmless(j, w, events[0]);
      HarmlessKeeps(j, w, Writes(j, w, events[0]));
      hide Writes, ForReview, PerformAll, MaySeed;
      HeldForReview(j, Next(j, w, events[0]), events[1..]);
    }
  }

  ghost predicate AlwaysForReview(j: Judge, w: World) { forall events :: ForReview(After(j, w, events).item) }

  /** Reuse of another profile stored meanwhile takes the item out of review. */
  lemma ReuseLeavesReview(j: Judge, w: World)
    requires MaySeed(w.item)
    ensures !ForReview(After(j, w, [Whole(Seed(Reuses(Listed())))]).item)
  {
    var e := Whole(Seed(Reuses(Listed())));
    var x := Perform(j, w, SetProfile(Listed()));
    assert [e][1..] == [];
    assert After(j, w, [e]) == After(j, Next(j, w, e), []);
    NoRun(j, Next(j, w, e));
    Single(j, w, SetProfile(Listed()));
    Appended(j, w, [SetProfile(Listed())], EnqueueStage(w, L1));
    KeepsProfile(j, x, EnqueueStage(w, L1));
  }

  lemma KeepsProfile(j: Judge, w: World, ws: seq<Write>)
    requires ws == [EnterStage(L1)] || ws == [InsertRequest(L1), EnterStage(L1)]
    ensures PerformAll(j, w, ws).item.profile == w.item.profile
  {
    Single(j, w, EnterStage(L1));
    PairOfWrites(j, w, InsertRequest(L1), EnterStage(L1));
  }

  /**
   An item recovered from upstream metadata stays in review over all events if and only if it was not
   left pending with its source retry still standing.
   */
  lemma UpstreamEndsInReview(j: Judge, w: World)
    requires ForReview(w.item)
    ensures AlwaysForReview(j, w) <==> !MaySeed(w.item)
    ensures !MaySeed(w.item) ==> forall events :: After(j, w, events).rows == w.rows
  {
    if MaySeed(w.item) {
      ReuseLeavesReview(j, w);
    } else {
      forall events ensures ForReview(After(j, w, events).item) && After(j, w, events).rows == w.rows {
        HeldForReview(j, w, events);
      }
    }
    hide ForReview;
  }

  /** The recovery, run to its end or cut after so many writes. */
  ghost function Recovered(j: Judge, w: World, fault: Fault, n: nat): World { PerformAll(j, w, First(FailCapture(j, w, fault), n)) }

  /**
   Every exhausted capture with upstream evidence starts that life, and a crash leaves the source
   retry standing exactly if there was one and the first question was not asked to its end.
   */
  lemma RecoveryStartsReview(j: Judge, w: World, fault: Fault, n: nat)
    requires Waits(w.item) && Exhausts(j, w.item, fault) && fault.upstream.Some? && fault.upstream.value.upstream && n >= 2
    ensures var t := Recovered(j, w, fault, n);
      && ForReview(t.item) && t.rows == w.rows
      && (MaySeed(t.item) <==> w.item.retry.SourceRetry? && n < |FailCapture(j, w, fault)|)
  {
    var p := fault.upstream.value;
    var recover := [StoreProfile(p), Recover(p)];
    var next := PerformAll(j, w, recover);
    PairOfWrites(j, w, StoreProfile(p), Recover(p));
    assert EnqueueStage(next, L1) == EnqueueStage(w, L1);
    FirstJoins(j, w, recover, EnqueueStage(w, L1), n);
    EnqueueCut(j, next, n - 2);
    hide PerformAll, EnqueueStage, Exhausts;
  }

  lemma EnqueueCut(j: Judge, w: World, n: nat)
    ensures var ws := EnqueueStage(w, L1); var t := PerformAll(j, w, First(ws, n));
      && t.rows == w.rows
      && t.item == if n < |ws| then w.item else w.item.(stage := L1, status := Running, retry := NoRetry, retryAttempt := 0)
  {
    var ws := EnqueueStage(w, L1);
    FirstIs(ws, n);
    NoWrites(j, w);
    Single(j, w, EnterStage(L1));
    PairOfWrites(j, w, InsertRequest(L1), EnterStage(L1));
    Single(j, w, InsertRequest(L1));
    assert |ws| == 2 ==> ws[..1] == [InsertRequest(L1)];
    hide PerformAll;
  }

  /** So a recovery leads to review for good if and only if it is not cut short on a source retry. */
  lemma RecoveryIsForGood(j: Judge, w: World, fault: Fault, n: nat)
    requires Waits(w.item) && Exhausts(j, w.item, fault) && fault.upstream.Some? && fault.upstream.value.upstream && n >= 2
    ensures AlwaysForReview(j, Recovered(j, w, fault, n)) <==> !(w.item.retry.SourceRetry? && n < |FailCapture(j, w, fault)|)
  {
    RecoveryStartsReview(j, w, fault, n);
    UpstreamEndsInReview(j, Recovered(j, w, fault, n));
    hide AlwaysForReview, ForReview;
  }

  // ---------- a run that ends auto-accepted ----------

  /** Upstream quotes of a product, with nothing decided. */
  function Quoted(): Profile { Listed().(upstream := true, accepted := false, eligibleKind := false) }

  /** A first capture that failed, with attempts left. */
  ghost function RetriesSource(j: Judge): World { Born(j, Fresh(), Fails(Fault(true, j.maxAttempts, None)), 1) }

  function CutRecovery(): Event { Cut(Seed(Fails(Fault(false, 1, Some(Quoted())))), 2) }

  lemma FirstFailure(j: Judge)
    requires j.maxAttempts >= 2
    ensures var b := RetriesSource(j);
      MaySeed(b.item) && b.item.profile == None && b.item.run.None? && b.rows == map[] && b.requests == map[]
  {
    Single(j, Fresh(), ScheduleSource(1));
  }

  /** Exhausted on its source retry, the item is recovered from upstream metadata, and the process dies. */
  lemma RecoveryCut(j: Judge, b: World)
    requires MaySeed(b.item) && b.requests == map[]
    ensures var t := Next(j, b, CutRecovery());
      ForReview(t.item) && MaySeed(t.item) && t.requests == map[] && t.rows == b.rows && t.item.run == b.item.run
  {
    var p := Quoted();
    var ws := RecoverUpstream(b, p);
    PairOfWrites(j, b, StoreProfile(p), Recover(p));
    assert ws[..2] == [StoreProfile(p), Recover(p)];
    assert !HasLiveRequest(b.requests, L1);
    FirstIs(ws, 2);
  }

  lemma CapturedAgain(j: Judge, w: World, text: Text)
    requires MaySeed(w.item) && w.requests == map[]
    ensures var t := Next(j, w, Whole(Seed(Captures(text)))); Asking(t, ProfileStage) && Unrecorded(w, t)
  {
    CaptureAsks(j, w, text);
  }

  /** The answer of the capability stage finalises the item: its leaf becomes the primary. */
  lemma AcceptsTheLeaf(output: Output, max: nat, w: World)
    requires Asking(w, CapabilityStage) && Judged(w.item, output) && w.item.run.None? && w.rows == map[]
    ensures var t := Next(Plain(output, max), w, Whole(Arrive(ReqKey(CapabilityStage, 1), Success(output))));
      1 in t.rows && t.rows[1].primary && t.rows[1].status.AutoAccepted? && t.rows[1].source.Auto?
  {
    var j, key := Plain(output, max), ReqKey(CapabilityStage, 1);
    var result := Success(output);
    var closed := Perform(j, w, Close(key, Done(false, output)));
    var stored := PerformAll(j, closed, [SetCapability(output)]);
    Single(j, closed, SetCapability(output));
    ResultParts(j, w, key, result);
    assert stored == StoredFor(j, closed, key, result);
    assert MoveFor(j, stored, key, result) == Classify(false);
    Single(j, w, Close(key, Done(false, output)));
    hide ApplyResult, MoveFor, StoredFor;
    FinalizeAccepts(output, max, stored);
    hide Finalize, PerformAll, Perform, Plain;
    Appended(j, w, [Close(key, Done(false, output))], [SetCapability(output)]);
    Appended(j, w, [Close(key, Done(false, output))] + [SetCapability(output)], Finalize(j, stored, false));
  }

  lemma FinalizeAccepts(output: Output, max: nat, w: World)
    requires Judged(w.item, output) && w.item.run.None? && w.rows == map[] && w.item.capability == Some(output)
    ensures var t := PerformAll(Plain(output, max), w, Finalize(Plain(output, max), w, false));
      1 in t.rows && t.rows[1].primary && t.rows[1].status.AutoAccepted? && t.rows[1].source.Auto?
  {
    var j, run := Plain(output, max), |w.runs|;
    var opening, closing := [InsertRun(Partial), SetRun(run)], [SetRunStatus(run, Succeeded), Finish(Succeeded, run)];
    IsEligible(output, max, w.item);
    var d := Decided(j, w.item, run);
    var x := PerformAll(j, w, opening);
    PairOfWrites(j, w, InsertRun(Partial), SetRun(run));
    assert x.rows == map[];
    FinalizeParts(j, w);
    OneLeaf(output, max, w.item, run);
    hide Finalize, RowWrites, Finalised, Plain, ItemEligible, LeafOf, Decided, PerformAll;
    BatchRecovery.RowWritesFinalise(j, x, d, false, run);
    var y := PerformAll(j, x, RowWrites(j.catalog, d, false, run));
    PairOfWrites(j, y, SetRunStatus(run, Succeeded), Finish(Succeeded, run));
    Appended(j, w, opening, RowWrites(j.catalog, d, false, run));
    Appended(j, w, opening + RowWrites(j.catalog, d, false, run), closing);
  }

  lemma FinalizeParts(j: Judge, w: World)
    requires LeafOf(j, w.item).Some? && ItemEligible(j, w.item) && w.item.run.None? && w.rows == map[]
    ensures var run := |w.runs|; var middle := RowWrites(j.catalog, Decided(j, w.item, run), false, run);
      Finalize(j, w, false) == [InsertRun(Partial), SetRun(run)] + middle + [SetRunStatus(run, Succeeded), Finish(Succeeded, run)]
  {
    assert !ManualLock(w.rows, j.catalog);
    hide RowWrites, Decided, LeafOf, ItemEligible;
  }

  /** The finalisation of an item with one leaf and nothing else. */
  lemma OneLeaf(output: Output, max: nat, item: Item, run: RunId)
    requires Judged(item, output) && item.capability == Some(output) && LeafOf(Plain(output, max), item).Some?
    ensures var j := Plain(output, max); var d := Decided(j, item, run);
      var rows := Finalised(map[], j.catalog, d, false, NOW);
      && d.run == Some(run)
      && 1 in rows && rows[1].primary && rows[1].status.AutoAccepted? && rows[1].source.Auto?
  {
    var j := Plain(output, max);
    var d := Decided(j, item, run);
    assert d.primary == Chosen(1, 0.9) && d.secondary == [] && d.capabilities == [] && d.run == Some(run) && d.threshold == 0.5;
    assert DecidePrimaryStatus(0.9, 0.5).AutoAccepted?;
    assert Written(map[], j.catalog, d, false, NOW) == map[1 := PrimaryRow(d, false, NOW)];
  }

  lemma IsEligible(output: Output, max: nat, item: Item)
    requires Judged(item, output)
    ensures LeafOf(Plain(output, max), item) == Some(Leaf(Term(1, None, false), 0.9, true)) && ItemEligible(Plain(output, max), item)
  {
    assert HitsOf(Plain(output, max), item) == [Hit(1, 0.9)] && [Hit(1, 0.9)][1..] == [];
  }

  /**
   A run of a new item that is recovered from upstream metadata, for review only, and yet ends with an
   automatic primary: the recovery is cut behind its second statement, and the source retry, which
   still stands, captures the homepage again.
   */
  lemma RecoveredItemIsAccepted(output: Output, text: Text, max: nat) returns (events: seq<Event>)
    requires ValidJudge(Plain(output, max)) && max >= 2
    ensures var j := Plain(output, max); var b := RetriesSource(j);
      && New(Fresh()) && |events| >= 1 && ForReview(Next(j, b, events[0]).item)
      && var t := After(j, b, events); 1 in t.rows && t.rows[1].primary && t.rows[1].status.AutoAccepted?
  {
    var j := Plain(output, max);
    var b := RetriesSource(j);
    assert j.maxAttempts == max && New(Fresh());
    var again, last := Whole(Seed(Captures(text))), Whole(Arrive(ReqKey(CapabilityStage, 1), Success(output)));
    FirstFailure(j);
    RecoveryCut(j, b);
    var x := Next(j, b, CutRecovery());
    CapturedAgain(j, x, text);
    var y := Next(j, x, again);
    var middle := ReachesCapability(output, max, y);
    var z := After(j, y, middle);
    AcceptsTheLeaf(output, max, z);
    hide *;
    AfterSnoc(j, y, middle, last);
    TwoFirst(j, b, CutRecovery(), again, middle + [last]);
    events := [CutRecovery(), again] + (middle + [last]);
  }
}

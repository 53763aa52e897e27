/** Attempts are bounded, open requests are unique, and items come to an end, unless they are left behind. */
module BatchProgress {
  import opened Prelude
  import opened BatchItems
  import opened BatchWrites
  import opened BatchShape
  import opened BatchEvents

  // ---------- whole lives ----------

  ghost function After(j: Judge, w: World, events: seq<Event>): World
    decreases |events|
  {
    if events == [] then w else After(j, Next(j, w, events[0]), events[1..])
  }

  /** How many results a run loses. */
  ghost function Lost(j: Judge, w: World, events: seq<Event>): nat
    decreases |events|
  {
    if events == [] then 0 else LostBy(w, events[0]) + Lost(j, Next(j, w, events[0]), events[1..])
  }

  /** An item as _create_item inserts it. */
  predicate New(w: World) {
    w.item.status.Pending? && w.item.stage.ProfileStage? && w.item.retry.NoRetry? && w.item.retryAttempt == 0 && w.requests == map[]
  }

  /** The pass that created the item, run to its end or cut after so many writes. */
  ghost function Born(j: Judge, w: World, pass: Pass, writes: nat): World { PerformAll(j, w, First(PassWrites(j, w, pass), writes)) }

  /** A result writes nothing exactly if it is of no request, an older attempt, another stage or an ended item. */
  lemma StaleResultIsIdle(j: Judge, w: World, key: ReqKey, result: Result)
    ensures ApplyResult(j, w, key, result) == [] <==>
      !Exists(w.requests, key) || key.attempt < |At(w.requests, key.stage)| || w.item.stage != key.stage || Terminal(w.item.status)
    ensures ApplyResult(j, w, key, result) == [] ==>
      Next(j, w, Whole(Arrive(key, result))) == w && forall n :: Next(j, w, Cut(Arrive(key, result), n)) == w
  {
    hide StoresFor, MoveFor, Make;
    if ApplyResult(j, w, key, result) == [] {
      hide ApplyResult, Delivered;
      IdleEvent(j, w, Whole(Arrive(key, result)));
      forall n: nat ensures Next(j, w, Cut(Arrive(key, result), n)) == w { IdleEvent(j, w, Cut(Arrive(key, result), n)); }
    }
  }

  lemma RunUnfolds(j: Judge, w: World, events: seq<Event>)
    requires events != []
    ensures After(j, w, events) == After(j, Next(j, w, events[0]), events[1..])
    ensures Lost(j, w, events) == LostBy(w, events[0]) + Lost(j, Next(j, w, events[0]), events[1..])
  {
  }

  lemma NoRun(j: Judge, w: World)
    ensures After(j, w, []) == w && Lost(j, w, []) == 0
  {
  }

  lemma {:induction false} RunKeepsInv(j: Judge, w: World, events: seq<Event>, lost: nat)
    requires Inv(j, w, lost) && ValidJudge(j)
    ensures Inv(j, After(j, w, events), lost + Lost(j, w, events))
    decreases |events|
  {
    hide *;
    if events == [] {
      NoRun(j, w);
    } else {
      RunUnfolds(j, w, events);
      EventKeepsInv(j, w, events[0], lost);
      RunKeepsInv(j, Next(j, w, events[0]), events[1..], lost + LostBy(w, events[0]));
    }
  }

  lemma BirthKeepsInv(j: Judge, w: World, pass: Pass, writes: nat)
    requires New(w) && ValidJudge(j)
    ensures Inv(j, Born(j, w, pass, writes), 0)
  {
    assert forall s :: At(w.requests, s) == [];
    assert Inv(j, w, 0);
    hide PassWrites, Inv;
    PassKeepsInv(j, w, pass, 0, writes);
  }

  /**
   Whatever happens to a new item, and wherever it is cut short, the newest request of a stage is the
   only one that may be open; a stage gets no more requests than max attempts and results lost on a
   waiting item, and one more only behind JEV's.
   */
  lemma RequestsStayBounded(j: Judge, w: World, pass: Pass, writes: nat, events: seq<Event>, stage: Stage)
    requires New(w) && ValidJudge(j)
    ensures var b := Born(j, w, pass, writes);
      var rs, bound := At(After(j, b, events).requests, stage), j.maxAttempts + Lost(j, b, events);
      && (forall i :: 0 <= i < |rs| - 1 ==> rs[i].Broken?)
      && |rs| <= bound + 1
      && (!stage.CapabilityStage? || NoJev(rs) ==> |rs| <= bound)
      && (|rs| == bound + 1 ==> rs[bound - 1].jev)
  {
    hide *;
    var b := Born(j, w, pass, writes);
    BirthKeepsInv(j, w, pass, writes);
    RunKeepsInv(j, b, events, 0);
    StagesOf(j, After(j, b, events), Lost(j, b, events));
    StageOf(After(j, b, events).requests, j.maxAttempts + Lost(j, b, events), stage);
    BoundOf(j, stage, At(After(j, b, events).requests, stage), j.maxAttempts + Lost(j, b, events));
  }

  lemma BoundOf(j: Judge, stage: Stage, rs: seq<Req>, bound: nat)
    requires StageFits(stage, rs, bound) && ValidJudge(j) && bound >= j.maxAttempts
    ensures bound > 0
    ensures forall i :: 0 <= i < |rs| - 1 ==> rs[i].Broken?
    ensures |rs| <= bound + 1 && (!stage.CapabilityStage? || NoJev(rs) ==> |rs| <= bound)
    ensures |rs| == bound + 1 ==> rs[bound - 1].jev
  {
  }

  // ---------- every item that is not left behind comes to an end ----------

  function Span(j: Judge): nat { 3 * j.maxAttempts + 9 }

  /** JEV may still take the stage, or has its newest attempt. */
  predicate JevPossible(rs: seq<Req>) { NoJev(rs) || (rs != [] && rs[|rs| - 1].jev) }

  function StageMeasure(j: Judge, rs: seq<Req>): nat {
    3 * Excess(j.maxAttempts + 1, |rs|) + 1 + if JevPossible(rs) then 1 else 0
  }

  /** Falls with every answer, retry and pass. */
  function Measure(j: Judge, w: World): nat {
    if Terminal(w.item.status) then 0
    else if w.item.status.Running? then Rank(w.item.stage) * Span(j) + StageMeasure(j, At(w.requests, w.item.stage))
    else if w.item.retry.ModelRetry? then Rank(w.item.stage) * Span(j) + 3 * Excess(j.maxAttempts + 1, w.item.retryAttempt)
    else 7 * Span(j) + Excess(j.maxAttempts, w.item.retryAttempt)
  }

  /** An open request of the item's own stage, whose answer it takes. */
  predicate AwaitsAnswer(w: World) { NewestOpen(At(w.requests, w.item.stage)) }

  /** The event runs to its end and answers the open request, finishes a recorded result, or resumes a retry. */
  predicate Advances(w: World, e: Event) {
    e.Whole? &&
    match e.action
    case Arrive(key, _) => Applies(w, key) && Get(w.requests, key).Open()
    case Reapply => Recorded(w)
    case Resume => Resumes(w.item)
    case Seed(pass) => MaySeed(w.item) && MayPass(pass)
    case _ => false
  }

  lemma {:induction false} RankTimes(a: nat, b: nat, span: nat)
    requires a < b
    ensures a * span + span <= b * span
  {
    if b > a + 1 { RankTimes(a, b - 1, span); }
    assert b * span == (b - 1) * span + span;
  }

  /** A later stage, or the end, is less than anything at this one. */
  lemma LaterIsLess(j: Judge, w: World, t: World)
    requires !Terminal(w.item.status) && (w.item.status.Running? || Resumes(w.item)) && Rank(w.item.stage) > 0
    requires Terminal(t.item.status) || (t.item.status.Running? && Rank(t.item.stage) < Rank(w.item.stage))
    ensures Measure(j, t) < Measure(j, w)
  {
    RankTimes(if Terminal(t.item.status) then 0 else Rank(t.item.stage), Rank(w.item.stage), Span(j));
    hide NoJev;
  }

  /** Whatever a waiting item comes to is less. */
  lemma WaitingIsMost(j: Judge, w: World, t: World)
    requires Waits(w.item)
    requires Terminal(t.item.status) || t.item.status.Running? || Resumes(t.item)
    ensures Measure(j, t) < Measure(j, w)
  {
    if !Terminal(t.item.status) { RankTimes(Rank(t.item.stage), 7, Span(j)); }
    hide NoJev;
  }

  lemma CurrentOf(j: Judge, w: World, lost: nat)
    requires Inv(j, w, lost)
    ensures CurrentFits(w.item, At(w.requests, w.item.stage), j.maxAttempts, lost)
    ensures OneJev(w.item.stage, At(w.requests, w.item.stage))
  {
    StageOf(w.requests, j.maxAttempts + lost, w.item.stage);
  }

  /** JEV's failed attempt is followed by one of another provider. */
  lemma FallbackIsLess(j: Judge, rs: seq<Req>)
    requires rs != [] && rs[|rs| - 1].jev
    ensures StageMeasure(j, rs + [Queued(false)]) < StageMeasure(j, rs)
  {
    assert (rs + [Queued(false)])[|rs| - 1].jev;
  }

  /** A closed request counts like an open one. */
  lemma ClosingMeasure(j: Judge, rs: seq<Req>, req: Req)
    requires rs != [] && req.jev == rs[|rs| - 1].jev
    ensures StageMeasure(j, rs[|rs| - 1 := req]) == StageMeasure(j, rs)
  {
    var more := rs[|rs| - 1 := req];
    assert NoJev(more) <==> NoJev(rs) by {
      assert forall i :: 0 <= i < |rs| ==> more[i].jev == rs[i].jev;
    }
  }

  /** A result applied to its end. */
  lemma ResultShrinks(j: Judge, w: World, key: ReqKey, result: Result, lost: nat)
    requires Inv(j, w, lost) && ValidJudge(j) && Delivered(w, key, result)
    ensures var t := PerformAll(j, w, ApplyResult(j, w, key, result));
      && Measure(j, t) <= Measure(j, w)
      && (Get(w.requests, key).Open() || w.item.status.Running? ==> Measure(j, t) < Measure(j, w))
  {
    var closed := Perform(j, w, Close(key, Outcome(w, key, result)));
    var stored := StoredFor(j, closed, key, result);
    var t := PerformAll(j, w, ApplyResult(j, w, key, result));
    var rs := At(w.requests, key.stage);
    ResultKeepsInv(j, w, key, result, lost);
    CurrentOf(j, w, lost);
    assert At(stored.requests, key.stage) == rs[|rs| - 1 := Outcome(w, key, result)];
    ClosingMeasure(j, rs, Outcome(w, key, result));
    hide Inv, StoredFor, ApplyResult, PerformAll, Perform, NoJev, OneJev, StageMeasure;
    LedShrinks(j, w, stored, t, lost);
  }

  lemma LedShrinks(j: Judge, w: World, stored: World, t: World, lost: nat)
    requires LeadsOn(stored, t) && stored.item.stage == w.item.stage && !Terminal(w.item.status)
    requires CurrentFits(w.item, At(w.requests, w.item.stage), j.maxAttempts, lost)
    requires var rs, more := At(w.requests, w.item.stage), At(stored.requests, w.item.stage);
      rs != [] && |more| == |rs| && StageMeasure(j, more) == StageMeasure(j, rs)
    ensures Measure(j, t) <= Measure(j, w)
    ensures NewestOpen(At(w.requests, w.item.stage)) || w.item.status.Running? ==> Measure(j, t) < Measure(j, w)
  {
    var rs, more := At(w.requests, w.item.stage), At(stored.requests, w.item.stage);
    hide NoJev;
    if Waits(w.item) {
      WaitingIsMost(j, w, t);
    } else if Terminal(t.item.status) || (t.item.status.Running? && Rank(t.item.stage) < Rank(w.item.stage)) {
      LaterIsLess(j, w, t);
    } else if t.item.status.Running? {
      FallbackIsLess(j, more);
    }
  }

  /** A recorded result that was cut short leaves the measure as it was, or less. */
  lemma StandingShrinks(j: Judge, w: World, closed: World, t: World)
    requires Stands(closed, t) && closed.item == w.item
    requires StageMeasure(j, At(closed.requests, w.item.stage)) == StageMeasure(j, At(w.requests, w.item.stage))
    ensures Measure(j, t) <= Measure(j, w)
  {
    var more := At(closed.requests, w.item.stage);
    if At(t.requests, w.item.stage) != more { FallbackIsLess(j, more); }
    hide NoJev, StageMeasure;
  }

  lemma ResultCutShrinks(j: Judge, w: World, key: ReqKey, result: Result, lost: nat, n: nat)
    requires Inv(j, w, lost) && ValidJudge(j) && Delivered(w, key, result)
    ensures Measure(j, PerformAll(j, w, First(ApplyResult(j, w, key, result), n))) <= Measure(j, w)
  {
    var ws := ApplyResult(j, w, key, result);
    FirstIs(ws, n);
    NoWrites(j, w);
    if n >= |ws| {
      ResultShrinks(j, w, key, result, lost);
    } else if n > 0 {
      var rs := At(w.requests, key.stage);
      var closed := Perform(j, w, Close(key, Outcome(w, key, result)));
      ResultCutKeepsInv(j, w, key, result, lost, n);
      assert At(closed.requests, key.stage) == rs[|rs| - 1 := Outcome(w, key, result)];
      ClosingMeasure(j, rs, Outcome(w, key, result));
      hide Inv, ApplyResult, PerformAll, Stands, StageMeasure, Perform;
      StandingShrinks(j, w, closed, PerformAll(j, w, ws[..n]));
    }
  }

  lemma ResumeShrinks(j: Judge, w: World, lost: nat, n: nat)
    requires Inv(j, w, lost) && ValidJudge(j) && Resumes(w.item)
    ensures var ws := ResumeRetry(w); var t := PerformAll(j, w, First(ws, n));
      Measure(j, t) <= Measure(j, w) && (n >= |ws| ==> Measure(j, t) < Measure(j, w))
  {
    ResumeKeepsInv(j, w, lost, n);
    CurrentOf(j, w, lost);
    hide Inv, ResumeRetry, PerformAll, NoJev, First;
  }

  lemma MarkShrinks(j: Judge, w: World, key: ReqKey, req: Req, t: World)
    requires Exists(w.requests, key) && key.attempt == |At(w.requests, key.stage)|
    requires t.item == w.item && t.requests == Marked(w.requests, key, req)
    requires req.jev ==> Get(w.requests, key).jev || NoJev(At(w.requests, key.stage))
    requires Get(w.requests, key).jev ==> req.jev
    ensures Measure(j, t) <= Measure(j, w)
  {
    var rs, more := At(w.requests, key.stage), At(t.requests, key.stage);
    assert more == rs[|rs| - 1 := req];
    if req.jev == rs[|rs| - 1].jev { ClosingMeasure(j, rs, req); }
    assert w.item.stage != key.stage ==> At(t.requests, w.item.stage) == At(w.requests, w.item.stage);
  }

  lemma PassShrinks(j: Judge, w: World, pass: Pass, lost: nat, n: nat)
    requires Inv(j, w, lost) && ValidJudge(j) && Waits(w.item)
    ensures var ws := PassWrites(j, w, pass); var t := PerformAll(j, w, First(ws, n));
      Measure(j, t) <= Measure(j, w) && (n >= |ws| ==> Measure(j, t) < Measure(j, w))
  {
    var ws := PassWrites(j, w, pass);
    var t := PerformAll(j, w, First(ws, n));
    PassKeepsInv(j, w, pass, lost, n);
    hide Inv, PassWrites, PerformAll, First, NoJev, StageMeasure;
    if n >= |ws| && !Waits(t.item) { WaitingIsMost(j, w, t); }
  }

  /** No event, cut or not, raises the measure, and each that advances the item lowers it. */
  lemma EventShrinks(j: Judge, w: World, e: Event, lost: nat)
    requires Inv(j, w, lost) && ValidJudge(j)
    ensures Measure(j, Next(j, w, e)) <= Measure(j, w)
    ensures Advances(w, e) ==> Measure(j, Next(j, w, e)) < Measure(j, w)
  {
    var ws := ActionWrites(j, w, e.action);
    EventIs(j, w, e);
    NoWrites(j, w);
    hide Inv, PerformAll, ApplyResult, ResumeRetry, PassWrites, Measure, Next, First, NoJev;
    FirstIs(ws, Reach(e, ws));
    match e.action
    case Arrive(key, result) =>
      if Delivered(w, key, result) {
        ResultCutShrinks(j, w, key, result, lost, Reach(e, ws));
        ResultShrinks(j, w, key, result, lost);
      }
    case Reapply =>
      if Recorded(w) {
        ResultCutShrinks(j, w, RecordedKey(w), RecordedResult(Get(w.requests, RecordedKey(w))), lost, Reach(e, ws));
        ResultShrinks(j, w, RecordedKey(w), RecordedResult(Get(w.requests, RecordedKey(w))), lost);
      }
    case Resume => if Resumes(w.item) { ResumeShrinks(j, w, lost, Reach(e, ws)); } else { NothingToResume(w); }
    case Submit(key) =>
      if Exists(w.requests, key) && Get(w.requests, key).Queued? {
        SubmitKeepsInv(j, w, key, lost);
        MarkShrinks(j, w, key, Submitted(Get(w.requests, key).jev), PerformAll(j, w, ws));
      }
    case TakeJev =>
      if JevMayTake(w) {
        var key := ReqKey(CapabilityStage, |At(w.requests, CapabilityStage)|);
        MarkKeepsInv(j, w, key, Submitted(true), lost);
        MarkShrinks(j, w, key, Submitted(true), PerformAll(j, w, ws));
      }
    case Seed(pass) => if MaySeed(w.item) && MayPass(pass) { PassShrinks(j, w, pass, lost, Reach(e, ws)); }
  }

  ghost function Advanced(j: Judge, w: World, events: seq<Event>): nat
    decreases |events|
  {
    if events == [] then 0
    else (if Advances(w, events[0]) then 1 else 0) + Advanced(j, Next(j, w, events[0]), events[1..])
  }

  /** However events come and wherever they are cut, an item takes only finitely many that advance it. */
  lemma {:induction false} ItemsEnd(j: Judge, w: World, events: seq<Event>, lost: nat)
    requires Inv(j, w, lost) && ValidJudge(j)
    ensures Advanced(j, w, events) + Measure(j, After(j, w, events)) <= Measure(j, w)
    decreases |events|
  {
    if events != [] {
      hide Inv, Next, Measure, Advances, Loses;
      EventKeepsInv(j, w, events[0], lost);
      EventShrinks(j, w, events[0], lost);
      ItemsEnd(j, Next(j, w, events[0]), events[1..], lost + LostBy(w, events[0]));
    }
  }

  // ---------- items that are left behind ----------

  /** Pending without a retry, and no answer to come. */
  predicate LeftBehind(w: World) { w.item.status.Pending? && w.item.retry.NoRetry? && !AwaitsAnswer(w) }

  /**
   An item that has not ended has an event that advances it if and only if it runs, has a retry of a
   stage or of its source ahead of it, or an open request of its own stage.
   */
  lemma UnendedItemsCanAdvance(j: Judge, w: World, lost: nat)
    requires Inv(j, w, lost) && !Terminal(w.item.status)
    ensures (exists e :: Advances(w, e)) <==>
      w.item.status.Running? || w.item.retry.ModelRetry? || w.item.retry.SourceRetry? || AwaitsAnswer(w)
    ensures LeftBehind(w) <==> !exists e :: Advances(w, e)
  {
    CurrentOf(j, w, lost);
    if AwaitsAnswer(w) {
      assert Advances(w, Whole(Arrive(RecordedKey(w), Failure(true))));
    } else if w.item.status.Running? {
      assert Advances(w, Whole(Reapply));
    } else if w.item.retry.ModelRetry? {
      assert Advances(w, Whole(Resume));
    } else if w.item.retry.SourceRetry? {
      assert Advances(w, Whole(Seed(Fails(Fault(false, 1, None)))));
    }
  }

  /** A closed request of the item's stage is answered once more, because its job is still polled. */
  predicate AnswersAgain(w: World, e: Event) {
    e.action.Arrive? && Applies(w, e.action.key) && !Get(w.requests, e.action.key).Open()
  }

  /** Nothing but an answer given once more moves an item that was left behind. */
  lemma LeftBehindStays(j: Judge, w: World, e: Event)
    requires LeftBehind(w) && !AnswersAgain(w, e)
    ensures var t := Next(j, w, e);
      t.item == w.item && LeftBehind(t) && |At(t.requests, w.item.stage)| == |At(w.requests, w.item.stage)|
  {
    EventIs(j, w, e);
    NoWrites(j, w);
    var rs := At(w.requests, w.item.stage);
    match e.action
    case Submit(key) =>
      if Exists(w.requests, key) && Get(w.requests, key).Queued? {
        Single(j, w, Mark(key, Submitted(Get(w.requests, key).jev)));
        FirstIs(ActionWrites(j, w, e.action), Reach(e, ActionWrites(j, w, e.action)));
        assert key.stage == w.item.stage ==> key.attempt < |rs|;
      }
      hide Next, PerformAll;
    case _ => hide Next, PerformAll;
  }

  /** If it has asked nothing at its stage, it stays for good. */
  lemma {:induction false} LeftBehindForGood(j: Judge, w: World, events: seq<Event>)
    requires LeftBehind(w) && At(w.requests, w.item.stage) == []
    ensures After(j, w, events).item == w.item
    decreases |events|
  {
    if events != [] {
      LeftBehindStays(j, w, events[0]);
      hide Next;
      LeftBehindForGood(j, Next(j, w, events[0]), events[1..]);
    }
  }

  predicate NoAnswers(ws: seq<Write>) { forall i :: 0 <= i < |ws| ==> !ws[i].Close? && !ws[i].Mark? }

  /** Only a queued request opens a stage. */
  lemma {:induction false} OpenedByRequest(j: Judge, w: World, ws: seq<Write>, stage: Stage)
    requires NoAnswers(ws)
    ensures var rs := At(PerformAll(j, w, ws).requests, stage);
      if InsertRequest(stage) in ws then NewestOpen(rs) else rs == At(w.requests, stage)
    decreases |ws|
  {
    if ws != [] {
      assert !ws[0].Close? && !ws[0].Mark?;
      assert forall i :: 0 <= i < |ws[1..]| ==> ws[1..][i] == ws[i + 1];
      OpenedByRequest(j, Perform(j, w, ws[0]), ws[1..], stage);
      hide PerformAll;
    }
  }

  lemma PassesAnswerNothing(j: Judge, w: World, pass: Pass)
    ensures NoAnswers(PassWrites(j, w, pass))
  {
    hide PerformAll, HasLiveRequest, Exhausts;
  }

  /**
   The creating pass leaves an item behind if and only if it is cut short before the request of the
   stage it leaves it at is queued; then no event ever moves the item.
   */
  lemma CutBirthsAreLeftBehind(j: Judge, w: World, pass: Pass, n: nat, events: seq<Event>)
    requires New(w) && ValidJudge(j)
    ensures var ws := PassWrites(j, w, pass); var b := Born(j, w, pass, n);
      && (LeftBehind(b) <==> n < |ws| && InsertRequest(b.item.stage) !in ws[..n])
      && (LeftBehind(b) ==> After(j, b, events).item == b.item)
  {
    var ws, b := PassWrites(j, w, pass), Born(j, w, pass, n);
    assert forall s :: At(w.requests, s) == [];
    assert Inv(j, w, 0);
    PassKeepsInv(j, w, pass, 0, n);
    PassesAnswerNothing(j, w, pass);
    FirstIs(ws, n);
    hide PassWrites, PerformAll, Inv, After, PassLeads;
    if n < |ws| {
      OpenedByRequest(j, w, ws[..n], b.item.stage);
      if LeftBehind(b) { LeftBehindForGood(j, b, events); }
    } else {
      LedIsNotLeft(j, w, b);
    }
  }

  lemma LedIsNotLeft(j: Judge, w: World, t: World)
    requires PassLeads(j, w, t)
    ensures !LeftBehind(t)
  {
  }

  /** A capture that a crash leaves with the text stored and nothing asked. */
  lemma CutCaptureIsLeftBehind(j: Judge, w: World, source: Text, n: nat, events: seq<Event>)
    requires New(w) && ValidJudge(j) && n < 2
    ensures var b := Born(j, w, Captures(source), n); LeftBehind(b) && After(j, b, events).item == b.item
  {
    CutBirthsAreLeftBehind(j, w, Captures(source), n, events);
    hide PerformAll, After;
    assert InsertRequest(Born(j, w, Captures(source), n).item.stage) !in CaptureSource(w, source)[..n];
  }
}

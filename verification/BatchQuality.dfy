/** What reaches the assignment table without a human: only what passed the gate. */
module BatchQuality {
  import opened Assignments
  import opened Acceptance
  import opened BatchItems
  import opened BatchWrites

  // ---------- automatic primaries passed the gate ----------

  /** A write of an automatic primary, or of any row as auto-accepted. */
  predicate Promotes(w: Write) {
    w.WriteRow? && w.rowWrite.InsertRow? && (w.rowWrite.row.primary || w.rowWrite.row.status.AutoAccepted?)
  }

  /** The gate let this write through: the stored profile, markets and leaf are eligible for just this term. */
  ghost predicate Gated(j: Judge, item: Item, rows: Rows, w: Write) {
    Promotes(w) ==>
      && ItemEligible(j, item) && w.rowWrite.id == LeafOf(j, item).value.term.id
      && w.rowWrite.row.primary && w.rowWrite.row.status.AutoAccepted? && !ManualLock(rows, j.catalog)
  }

  ghost predicate AllGated(j: Judge, item: Item, rows: Rows, ws: seq<Write>) {
    forall i :: 0 <= i < |ws| ==> Gated(j, item, rows, ws[i])
  }

  lemma FinalizeIsGated(j: Judge, w: World, error: bool)
    ensures AllGated(j, w.item, w.rows, Finalize(j, w, error))
  {
    if LeafOf(j, w.item).Some? && ItemEligible(j, w.item) {
      var run := if w.item.run.Some? then w.item.run.value else |w.runs|;
      var d, locked := Decided(j, w.item, run), ManualLock(w.rows, j.catalog);
      EligibleIsAutoAccepted(LeafOf(j, w.item), ProfileOf(w.item), HitsOf(j, w.item), j.gate);
      RowsAreGated(j, w.item, w.rows, d, run);
      hide RowWrites, AllGated, ItemEligible, ManualLock, LeafOf, Decided;
      GatedAppend(j, w.item, w.rows, if w.item.run.Some? then [] else [InsertRun(Partial), SetRun(run)],
                  RowWrites(j.catalog, d, locked, run), [SetRunStatus(run, if error then Partial else Succeeded),
                                                         Finish(if error then Partial else Succeeded, run)]);
    }
  }

  lemma GatedAppend(j: Judge, item: Item, rows: Rows, a: seq<Write>, b: seq<Write>, c: seq<Write>)
    requires AllGated(j, item, rows, b)
    requires (forall i :: 0 <= i < |a| ==> !Promotes(a[i])) && (forall i :: 0 <= i < |c| ==> !Promotes(c[i]))
    ensures AllGated(j, item, rows, a + b + c)
  {
    hide Gated, Promotes;
    forall i | 0 <= i < |a + b + c| ensures Gated(j, item, rows, (a + b + c)[i]) {
      if i < |a| {
        assert (a + b + c)[i] == a[i];
        UnpromotedIsGated(j, item, rows, a[i]);
      } else if i < |a| + |b| {
        assert (a + b + c)[i] == b[i - |a|];
      } else {
        assert (a + b + c)[i] == c[i - |a| - |b|];
        UnpromotedIsGated(j, item, rows, c[i - |a| - |b|]);
      }
    }
  }

  lemma UnpromotedIsGated(j: Judge, item: Item, rows: Rows, w: Write)
    requires !Promotes(w)
    ensures Gated(j, item, rows, w)
  {
  }

  lemma RowsAreGated(j: Judge, item: Item, rows: Rows, d: Decision, run: RunId)
    requires LeafOf(j, item).Some? && ItemEligible(j, item) && d == Decided(j, item, run)
    requires DecidePrimaryStatus(d.primary.confidence, d.threshold) == AutoAccepted
    ensures AllGated(j, item, rows, RowWrites(j.catalog, d, ManualLock(rows, j.catalog), run))
  {
    hide ItemEligible, DecidePrimaryStatus;
  }

  /**
   Every write of an auto-accepted primary comes behind the gate: the item's stored profile, its
   market hits and its leaf, as this result left them, are eligible, and no human holds the primary.
   */
  lemma AutoAcceptedPassedTheGate(j: Judge, w: World, key: ReqKey, result: Result)
    ensures var closed := if Applies(w, key) then Perform(j, w, Close(key, Outcome(w, key, result))) else w;
      var stored := if result.Success? && Applies(w, key) then PerformAll(j, closed, Stores(j, closed, key.stage, result.output)) else closed;
      AllGated(j, stored.item, w.rows, ApplyResult(j, w, key, result))
  {
    if Applies(w, key) {
      var close := Close(key, Outcome(w, key, result));
      var closed := Perform(j, w, close);
      match result {
        case Failure(retryable) =>
          FinalizeIsGated(j, closed, true);
          hide Finalize, Gated, ItemEligible;
          FailureIsGated(j, closed, key, Get(w.requests, key).jev, retryable);
          PrefixIsGated(j, closed.item, w.rows, [close], Make(j, closed, AfterFailure(j, key, Get(w.requests, key).jev, retryable)));
        case Success(output) =>
          var stores := Stores(j, closed, key.stage, output);
          var stored := PerformAll(j, closed, stores);
          StoringStays(j, closed, key.stage, output);
          MovesAreGated(j, stored, key.stage);
          assert forall i :: 0 <= i < |stores| ==> !Promotes(stores[i]);
          hide Stores, Make, AllGated, PerformAll;
          PrefixIsGated(j, stored.item, w.rows, [close] + stores, Make(j, stored, AfterSuccess(j, stored.item, key.stage)));
      }
    }
  }

  lemma PrefixIsGated(j: Judge, item: Item, rows: Rows, a: seq<Write>, b: seq<Write>)
    requires AllGated(j, item, rows, b) && forall i :: 0 <= i < |a| ==> !Promotes(a[i])
    ensures AllGated(j, item, rows, a + b)
  {
    GatedAppend(j, item, rows, a, b, []);
    assert a + b + [] == a + b;
  }

  lemma FailureIsGated(j: Judge, w: World, key: ReqKey, jev: bool, retryable: bool)
    ensures AllGated(j, w.item, w.rows, Make(j, w, AfterFailure(j, key, jev, retryable)))
  {
    FinalizeIsGated(j, w, true);
    hide Finalize, ItemEligible;
  }

  lemma MovesAreGated(j: Judge, w: World, stage: Stage)
    ensures AllGated(j, w.item, w.rows, Make(j, w, AfterSuccess(j, w.item, stage)))
  {
    FinalizeIsGated(j, w, false);
    hide Finalize, ItemEligible, ShouldEscalateL1, ShouldEscalateLeaf, HitsOf, LeafOf;
  }
}

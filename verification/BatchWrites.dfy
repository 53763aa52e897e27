/** Lists of writes: what performing them, or the first of them, leaves alone. */
module BatchWrites {
  import opened Assignments
  import opened BatchItems

  predicate TouchesRequests(w: Write) { w.Close? || w.InsertRequest? || w.Mark? }

  lemma {:induction false} RequestsKept(j: Judge, w: World, ws: seq<Write>)
    requires forall i :: 0 <= i < |ws| ==> !TouchesRequests(ws[i])
    ensures PerformAll(j, w, ws).requests == w.requests
    decreases |ws|
  {
    if ws != [] {
      assert !TouchesRequests(ws[0]);
      assert forall i :: 0 <= i < |ws[1..]| ==> ws[1..][i] == ws[i + 1];
      RequestsKept(j, Perform(j, w, ws[0]), ws[1..]);
    }
  }

  lemma {:induction false} Appended(j: Judge, w: World, a: seq<Write>, b: seq<Write>)
    ensures PerformAll(j, w, a + b) == PerformAll(j, PerformAll(j, w, a), b)
    decreases |a|
  {
    if a == [] {
      assert a + b == b;
    } else {
      hide Perform;
      assert (a + b)[1..] == a[1..] + b;
      Appended(j, Perform(j, w, a[0]), a[1..], b);
    }
  }

  lemma Single(j: Judge, w: World, write: Write)
    ensures PerformAll(j, w, [write]) == Perform(j, w, write)
  {
    hide Perform;
    assert [write][1..] == [];
    assert PerformAll(j, w, [write]) == PerformAll(j, Perform(j, w, write), []);
  }

  /** Writes that end the item and leave its requests alone. */
  predicate Ending(ws: seq<Write>) {
    && ws != [] && ws[|ws| - 1].Finish? && Terminal(ws[|ws| - 1].status)
    && forall i :: 0 <= i < |ws| ==> !TouchesRequests(ws[i])
  }

  lemma EndingEnds(j: Judge, w: World, ws: seq<Write>)
    requires Ending(ws)
    ensures var t := PerformAll(j, w, ws); t.requests == w.requests && Terminal(t.item.status)
  {
    var before, last := ws[..|ws| - 1], ws[|ws| - 1];
    assert ws == before + [last];
    RequestsKept(j, w, ws);
    Appended(j, w, before, [last]);
    Single(j, PerformAll(j, w, before), last);
  }

  lemma CompletingEnds(w: World, status: ItemStatus)
    requires Terminal(status)
    ensures Ending(CompleteWithoutLeaf(w, status))
  {
  }

  lemma RowWritesAreRows(cat: Catalog, d: Decision, locked: bool, run: RunId)
    ensures forall i :: 0 <= i < |RowWrites(cat, d, locked, run)| ==> RowWrites(cat, d, locked, run)[i].WriteRow?
  {
  }

  lemma FinalizingEnds(j: Judge, w: World, error: bool)
    ensures Ending(Finalize(j, w, error))
  {
    if LeafOf(j, w.item).None? || !ItemEligible(j, w.item) {
      CompletingEnds(w, NeedsReview);
    } else {
      var run := if w.item.run.Some? then w.item.run.value else |w.runs|;
      var d, locked := Decided(j, w.item, run), ManualLock(w.rows, j.catalog);
      RowWritesAreRows(j.catalog, d, locked, run);
      hide RowWrites, ItemEligible, LeafOf, Decided, ManualLock;
    }
  }

  lemma NoWrites(j: Judge, w: World)
    ensures PerformAll(j, w, []) == w
  {
  }

  lemma PairOfWrites(j: Judge, w: World, a: Write, b: Write)
    ensures PerformAll(j, w, [a, b]) == Perform(j, Perform(j, w, a), b)
  {
    hide Perform;
    assert [a] + [b] == [a, b];
    Appended(j, w, [a], [b]);
    Single(j, w, a);
    Single(j, Perform(j, w, a), b);
  }

  /** Storing a result touches neither the requests nor where the item stands. */
  lemma StoringStays(j: Judge, w: World, stage: Stage, output: Output)
    ensures var t := PerformAll(j, w, Stores(j, w, stage, output));
      t.requests == w.requests && t.item.stage == w.item.stage && t.item.status == w.item.status
      && t.item.retry == w.item.retry && t.rows == w.rows && t.runs == w.runs && t.item.run == w.item.run
  {
    if stage.ProfileStage? {
      var p := j.build(output, w.item.source);
      PairOfWrites(j, w, StoreProfile(p), SetProfile(p));
    } else if Stores(j, w, stage, output) != [] {
      Single(j, w, Stores(j, w, stage, output)[0]);
    }
  }

  // ---------- writes that leave the item where it stands ----------

  /** Leaves the requests alone, and the item's status, stage and retry. */
  predicate Quiet(w: Write) {
    match w
    case StoreProfile(_) => true
    case SetProfile(_) => true
    case SetL1(_) => true
    case SetLeaf(_) => true
    case SetCapability(_) => true
    case InsertRun(_) => true
    case SetRun(_) => true
    case WriteRow(_) => true
    case SetRunStatus(_, _) => true
    case SetSource(_) => true
    case _ => false
  }

  predicate AllQuiet(ws: seq<Write>) { forall i :: 0 <= i < |ws| ==> Quiet(ws[i]) }

  /** The requests are the same, and the item stands where it stood. */
  ghost predicate Still(w: World, t: World) {
    && t.requests == w.requests && t.item.status == w.item.status && t.item.stage == w.item.stage
    && t.item.retry == w.item.retry && t.item.retryAttempt == w.item.retryAttempt
  }

  lemma {:induction false} QuietStays(j: Judge, w: World, ws: seq<Write>)
    requires AllQuiet(ws)
    ensures Still(w, PerformAll(j, w, ws))
    decreases |ws|
  {
    if ws != [] {
      assert Quiet(ws[0]);
      assert forall i :: 0 <= i < |ws[1..]| ==> ws[1..][i] == ws[i + 1];
      QuietStays(j, Perform(j, w, ws[0]), ws[1..]);
    }
  }

  lemma PrefixIsQuiet(ws: seq<Write>, n: nat)
    requires ws != [] && AllQuiet(ws[..|ws| - 1]) && n < |ws|
    ensures AllQuiet(ws[..n])
  {
    forall i | 0 <= i < n ensures Quiet(ws[..n][i]) {
      assert ws[..n][i] == ws[..|ws| - 1][i];
    }
  }

  /** Nothing, or everything, or something between. */
  lemma FirstIs(ws: seq<Write>, n: nat)
    ensures First(ws, 0) == [] && (n >= |ws| ==> First(ws, n) == ws) && (n < |ws| ==> First(ws, n) == ws[..n])
  {
  }

  /** A crash behind `a` is a crash of `b`. */
  lemma FirstJoins(j: Judge, w: World, a: seq<Write>, b: seq<Write>, n: nat)
    ensures n < |a| ==> First(a + b, n) == a[..n]
    ensures n >= |a| ==> PerformAll(j, w, First(a + b, n)) == PerformAll(j, PerformAll(j, w, a), First(b, n - |a|))
  {
    if n < |a| {
      assert (a + b)[..n] == a[..n];
    } else {
      assert First(a + b, n) == a + First(b, n - |a|);
      Appended(j, w, a, First(b, n - |a|));
    }
  }

  /** All but the last write of a finalisation are quiet, and so are those of a completion. */
  lemma EndsQuietly(j: Judge, w: World, error: bool, status: ItemStatus)
    ensures var ws := Finalize(j, w, error); ws != [] && AllQuiet(ws[..|ws| - 1])
    ensures var ws := CompleteWithoutLeaf(w, status); ws != [] && AllQuiet(ws[..|ws| - 1])
  {
    if LeafOf(j, w.item).Some? && ItemEligible(j, w.item) {
      var run := if w.item.run.Some? then w.item.run.value else |w.runs|;
      var d, locked := Decided(j, w.item, run), ManualLock(w.rows, j.catalog);
      RowWritesAreRows(j.catalog, d, locked, run);
      hide RowWrites, ItemEligible, LeafOf, Decided, ManualLock;
      var opening := if w.item.run.Some? then [] else [InsertRun(Partial), SetRun(run)];
      var status := if error then Partial else Succeeded;
      var ws := Finalize(j, w, error);
      assert ws[..|ws| - 1] == opening + RowWrites(j.catalog, d, locked, run) + [SetRunStatus(run, status)];
    }
  }
}

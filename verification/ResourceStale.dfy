/** A run of a new resource in which a check with an older answer settles after one with a newer. */
module ResourceStale {
  import opened Prelude
  import opened Entries
  import opened Fingerprint
  import opened Codec
  import opened Diff
  import opened Resources
  import opened ResourceSafety
  import opened ResourceChecks
  import opened ResourceReplay
  import opened ResourceRace
  import opened ResourceOverlap

  lemma FourEvents(c: Codec, known: set<Text>, w: World, e0: Event, e1: Event, e2: Event, e3: Event)
    ensures var w1 := Happens(c, w, e0); var w2 := Happens(c, w1, e1); var w3 := Happens(c, w2, e2);
      && Ran(c, w, [e0, e1, e2, e3]) == Happens(c, w3, e3)
      && (OrderlyRun(c, known, w, [e0, e1, e2, e3]) <==>
          Orderly(c, known, w, e0) && Orderly(c, known, w1, e1) && Orderly(c, known, w2, e2) && Orderly(c, known, w3, e3))
  {
    hide Happens, Orderly;
    var w1 := Happens(c, w, e0);
    var w2 := Happens(c, w1, e1);
    var w3 := Happens(c, w2, e2);
    assert [e0, e1, e2, e3][1..] == [e1, e2, e3] && [e1, e2, e3][1..] == [e2, e3] && [e2, e3][1..] == [e3] && [e3][1..] == [];
    assert Ran(c, w3, [e3]) == Ran(c, Happens(c, w3, e3), []);
    assert Ran(c, w2, [e2, e3]) == Ran(c, w3, [e3]);
    assert Ran(c, w1, [e1, e2, e3]) == Ran(c, w2, [e2, e3]);
    assert OrderlyRun(c, known, w3, [e3]) <==> Orderly(c, known, w3, e3);
    assert OrderlyRun(c, known, w2, [e2, e3]) <==> Orderly(c, known, w2, e2) && OrderlyRun(c, known, w3, [e3]);
    assert OrderlyRun(c, known, w1, [e1, e2, e3]) <==> Orderly(c, known, w1, e1) && OrderlyRun(c, known, w2, [e2, e3]);
  }

  lemma {:induction false} RunsJoin(c: Codec, known: set<Text>, w: World, a: seq<Event>, b: seq<Event>)
    ensures Ran(c, w, a + b) == Ran(c, Ran(c, w, a), b)
    ensures OrderlyRun(c, known, w, a + b) <==> OrderlyRun(c, known, w, a) && OrderlyRun(c, known, Ran(c, w, a), b)
    decreases |a|
  {
    hide Happens, Orderly;
    if a == [] {
      assert a + b == b;
    } else {
      assert (a + b)[1..] == a[1..] + b && (a + b)[0] == a[0];
      RunsJoin(c, known, Happens(c, w, a[0]), a[1..], b);
    }
  }

  /** A first check of an empty sitemap. */
  function FirstCheck(url: Text, empty: Document, v: Validators): seq<Event> {
    [Begin(url, Body(empty, v), 0), Proceed(0), Proceed(0), Settle(0)]
  }

  /** Two checks start; the one with the older answer waits. */
  function TwoStart(url: Text, empty: Document, doc: Document, v: Validators): seq<Event> {
    [Begin(url, Body(empty, v), 1), Begin(url, Body(doc, v), 2), Proceed(2), Proceed(2)]
  }

  const TWO_END: seq<Event> := [Proceed(2), Settle(2), Proceed(1), Settle(1)]

  function RowOfDoc(url: Text, doc: Document, v: Validators): ResourceRow {
    RowFor(StateKey(url, PrintOf(doc).metadata), PrintOf(doc), v)
  }

  function StateOf(doc: Document): Blob { StateBlob(EncodeState(PrintOf(doc).entries)) }

  /** After the first check. */
  function Based(url: Text, empty: Document, v: Validators): World {
    var row := RowOfDoc(url, empty, v);
    World(Store(map[row.stateKey := StateOf(empty)], map[url := row], [RunRecord(url, 0, Baseline(row.stateKey))]),
          [Flight(url, Body(empty, v), 0, None, [], true)])
  }

  lemma FirstCheckIs(c: Codec, known: set<Text>, url: Text, empty: Document, v: Validators)
    requires DocFits(c, known, empty)
    ensures OrderlyRun(c, known, NEW, FirstCheck(url, empty, v)) && Ran(c, NEW, FirstCheck(url, empty, v)) == Based(url, empty, v)
  {
    var p, row, answer := PrintOf(empty), RowOfDoc(url, empty, v), Body(empty, v);
    var w1 := Happens(c, NEW, Begin(url, answer, 0));
    var put := Put(row.stateKey, StateOf(empty));
    hide PrintOf, EncodeState, DocFits;
    assert w1 == World(NEW.store, [Flight(url, answer, 0, None, [put], false)]);
    var w2 := Happens(c, w1, Proceed(0));
    assert [put][1..] == [];
    assert w2 == World(Store(map[row.stateKey := StateOf(empty)], map[], []), [Flight(url, answer, 0, None, [], false)]);
    var w3 := Happens(c, w2, Proceed(0));
    var save, record := Save(url, row), Record(RunRecord(url, 0, Baseline(row.stateKey)));
    assert w3 == World(w2.store, [Flight(url, answer, 0, None, [save, record], true)]);
    PairPerforms(w3.store, save, record);
    assert Happens(c, w3, Settle(0)) == Based(url, empty, v);
    FourEvents(c, known, NEW, Begin(url, answer, 0), Proceed(0), Proceed(0), Settle(0));
  }

  // ---------- the two checks ----------

  function DiffOfDocs(empty: Document, doc: Document): DiffResult { DiffOf(PrintOf(empty).entries, PrintOf(doc).entries) }

  function NewDiffKey(url: Text, doc: Document): ObjectKey { DiffKey(url, 2, PrintOf(doc).urlset) }

  function NewRecord(url: Text, empty: Document, doc: Document, v: Validators): RunRecord {
    var d := DiffOfDocs(empty, doc);
    RunRecord(url, 2, Changed(RowOfDoc(url, doc, v).stateKey, NewDiffKey(url, doc), |d.added|, |d.removed|, |d.modified|))
  }

  function NewWrites(url: Text, empty: Document, doc: Document, v: Validators): seq<Write> {
    [Put(NewDiffKey(url, doc), DiffBlob(DiffOfDocs(empty, doc))), Save(url, RowOfDoc(url, doc, v)), Record(NewRecord(url, empty, doc, v))]
  }

  /** Both checks have seen the empty state; the newer answer's state is stored and its diff is known. */
  function Begun(url: Text, empty: Document, doc: Document, v: Validators): World {
    var first, row := RowOfDoc(url, empty, v), RowOfDoc(url, doc, v);
    var based := Based(url, empty, v);
    World(based.store.(objects := based.store.objects[row.stateKey := StateOf(doc)]),
          based.flights + [Flight(url, Body(empty, v), 1, Some(first), [], false),
                           Flight(url, Body(doc, v), 2, Some(first), NewWrites(url, empty, doc, v), true)])
  }

  /** At the end the row is the empty sitemap's again, and the runs say baseline, changed, unchanged. */
  function Ended(url: Text, empty: Document, doc: Document, v: Validators): Store {
    var first, begun := RowOfDoc(url, empty, v), Begun(url, empty, doc, v).store;
    Store(begun.objects[NewDiffKey(url, doc) := DiffBlob(DiffOfDocs(empty, doc))], map[url := first],
          begun.runs + [NewRecord(url, empty, doc, v), RunRecord(url, 1, SemanticUnchanged(first.stateKey))])
  }

  /** Documents that differ in their URLs differ in both fingerprints. */
  lemma PrintsDiffer(c: Codec, known: set<Text>, empty: Document, doc: Document)
    requires NoCollisions(c, known) && DocFits(c, known, empty) && DocFits(c, known, doc)
    requires empty.entries == [] && doc.entries != []
    ensures PrintOf(doc).urlset != PrintOf(empty).urlset && PrintOf(doc).metadata != PrintOf(empty).metadata
    ensures Decode(c, EncodeState(PrintOf(empty).entries)) == Ok(PrintOf(empty).entries)
    ensures PrintOf(empty).entries == [] && PrintOf(doc).entries != []
  {
    PrintReads(c, known, empty);
    PrintReads(c, known, doc);
    if PrintOf(doc).urlset == PrintOf(empty).urlset || PrintOf(doc).metadata == PrintOf(empty).metadata {
      PrintDecides(c, known, PrintOf(doc).entries, PrintOf(empty).entries);
    }
  }

  lemma TwoStartIs(c: Codec, known: set<Text>, url: Text, empty: Document, doc: Document, v: Validators)
    requires NoCollisions(c, known) && DocFits(c, known, empty) && DocFits(c, known, doc)
    requires empty.entries == [] && doc.entries != []
    ensures var w := Based(url, empty, v);
      OrderlyRun(c, known, w, TwoStart(url, empty, doc, v)) && Ran(c, w, TwoStart(url, empty, doc, v)) == Begun(url, empty, doc, v)
  {
    var w, first, row := Based(url, empty, v), RowOfDoc(url, empty, v), RowOfDoc(url, doc, v);
    PrintsDiffer(c, known, empty, doc);
    hide PrintOf, EncodeState, DocFits, DiffOf, Decode, NoCollisions;
    var w1 := Happens(c, w, Begin(url, Body(empty, v), 1));
    var stale := Flight(url, Body(empty, v), 1, Some(first), [], false);
    assert w1 == World(w.store, w.flights + [stale]);
    var w2 := Happens(c, w1, Begin(url, Body(doc, v), 2));
    var put := Put(row.stateKey, StateOf(doc));
    var newer := Flight(url, Body(doc, v), 2, Some(first), [put], false);
    assert w2 == World(w.store, w1.flights + [newer]);
    var w3 := Happens(c, w2, Proceed(2));
    assert [put][1..] == [];
    assert w3 == World(w.store.(objects := w.store.objects[row.stateKey := StateOf(doc)]), w1.flights + [newer.(rest := [])]);
    PlanIs(c, newer.(rest := []), w3.store.objects);
    assert Happens(c, w3, Proceed(2)) == Begun(url, empty, doc, v);
    FourEvents(c, known, w, Begin(url, Body(empty, v), 1), Begin(url, Body(doc, v), 2), Proceed(2), Proceed(2));
  }

  lemma TwoEndIs(c: Codec, known: set<Text>, url: Text, empty: Document, doc: Document, v: Validators)
    requires DocFits(c, known, empty) && DocFits(c, known, doc)
    ensures var w := Begun(url, empty, doc, v);
      OrderlyRun(c, known, w, TWO_END) && Ran(c, w, TWO_END).store == Ended(url, empty, doc, v)
  {
    var w, first, row := Begun(url, empty, doc, v), RowOfDoc(url, empty, v), RowOfDoc(url, doc, v);
    var ws := NewWrites(url, empty, doc, v);
    hide PrintOf, EncodeState, DocFits, DiffOf, Decode;
    var w1 := Happens(c, w, Proceed(2));
    assert ws[1..] == [ws[1], ws[2]];
    assert w1 == World(w.store.(objects := w.store.objects[NewDiffKey(url, doc) := DiffBlob(DiffOfDocs(empty, doc))]),
                       w.flights[2 := w.flights[2].(rest := [ws[1], ws[2]])]);
    var w2 := Happens(c, w1, Settle(2));
    PairPerforms(w1.store, ws[1], ws[2]);
    assert w2 == World(Store(w1.store.objects, map[url := row], w.store.runs + [NewRecord(url, empty, doc, v)]),
                       w.flights[2 := w.flights[2].(rest := [])]);
    var w3 := Happens(c, w2, Proceed(1));
    var save, record := Save(url, first), Record(RunRecord(url, 1, SemanticUnchanged(first.stateKey)));
    assert w3 == World(w2.store, w2.flights[1 := w2.flights[1].(rest := [save, record], planned := true)]);
    PairPerforms(w3.store, save, record);
    assert Happens(c, w3, Settle(1)).store == Ended(url, empty, doc, v);
    FourEvents(c, known, w, Proceed(2), Settle(2), Proceed(1), Settle(1));
  }

  lemma EndedRow(c: Codec, known: set<Text>, url: Text, empty: Document, doc: Document, v: Validators)
    requires NoCollisions(c, known) && DocFits(c, known, empty) && DocFits(c, known, doc)
    requires empty.entries == [] && doc.entries != []
    ensures var s, first := Ended(url, empty, doc, v), RowOfDoc(url, empty, v);
      && url in s.rows && s.rows[url] == first && KeysAt(c, first.stateKey, s.objects) == multiset{}
  {
    PrintsDiffer(c, known, empty, doc);
    var s, first := Ended(url, empty, doc, v), RowOfDoc(url, empty, v);
    assert s.objects[first.stateKey] == StateOf(empty);
    hide PrintOf, DocFits, NoCollisions, DiffOfDocs, NewRecord;
    assert EntriesAt(c, first.stateKey, s.objects) == [];
  }

  lemma DiffAdds(c: Codec, known: set<Text>, empty: Document, doc: Document)
    requires NoCollisions(c, known) && DocFits(c, known, empty) && DocFits(c, known, doc)
    requires empty.entries == [] && doc.entries != []
    ensures var d := DiffOfDocs(empty, doc); Keys(d.removed) == multiset{} && Keys(d.added) != multiset{}
  {
    PrintsDiffer(c, known, empty, doc);
    var es := PrintOf(doc).entries;
    hide PrintOf, DocFits, NoCollisions;
    DiffIsMultisetDifference([], es);
    assert KeyOf(es[0]) in Keys(es);
  }

  /** Replayed, the runs give the newer document; the row is the empty one's. */
  lemma EndedIsWrong(c: Codec, known: set<Text>, url: Text, empty: Document, doc: Document, v: Validators)
    requires NoCollisions(c, known) && DocFits(c, known, empty) && DocFits(c, known, doc)
    requires empty.entries == [] && doc.entries != []
    ensures !History(c, Ended(url, empty, doc, v))
  {
    var s, first := Ended(url, empty, doc, v), RowOfDoc(url, empty, v);
    var base, change := RunRecord(url, 0, Baseline(first.stateKey)), NewRecord(url, empty, doc, v);
    var same := RunRecord(url, 1, SemanticUnchanged(first.stateKey));
    EndedRow(c, known, url, empty, doc, v);
    DiffAdds(c, known, empty, doc);
    assert s.runs == ([base] + [change]) + [same];
    assert DiffAt(change.outcome.diff, s.objects) == DiffOfDocs(empty, doc);
    hide PrintOf, DocFits, NoCollisions, KeysAt, Replayed, Keys, Ended, DiffOfDocs, RowOfDoc;
    ReplayedAppend(c, s.objects, [], base, url);
    ReplayedAppend(c, s.objects, [base], change, url);
    ReplayedAppend(c, s.objects, [base] + [change], same, url);
    assert [] + [base] == [base];
    assert Tracks(c, s.objects, s.rows, s.runs) ==> Replayed(c, s.objects, s.runs, url) == KeysAt(c, first.stateKey, s.objects);
  }

  /**
   For every document with a URL: after a baseline without any, a check that still got the empty
   document settles after one that got this document. Every run id is new and no check is torn, but
   the recorded diffs no longer lead to the current URLs.
   */
  lemma StaleCheckBreaksHistory(c: Codec, known: set<Text>, url: Text, empty: Document, doc: Document, v: Validators)
    requires NoCollisions(c, known) && DocFits(c, known, empty) && DocFits(c, known, doc)
    requires empty.entries == [] && doc.entries != []
    ensures var events := FirstCheck(url, empty, v) + TwoStart(url, empty, doc, v) + TWO_END;
      && OrderlyRun(c, known, NEW, events)
      && !History(c, Ran(c, NEW, events).store)
  {
    var a, b := FirstCheck(url, empty, v), TwoStart(url, empty, doc, v);
    FirstCheckIs(c, known, url, empty, v);
    TwoStartIs(c, known, url, empty, doc, v);
    TwoEndIs(c, known, url, empty, doc, v);
    EndedIsWrong(c, known, url, empty, doc, v);
    hide *;
    RunsJoin(c, known, NEW, a, b);
    RunsJoin(c, known, NEW, a + b, TWO_END);
  }
}

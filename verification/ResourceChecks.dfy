/** Every check of a resource is a sequence of safe writes. */
module ResourceChecks {
  import opened Prelude
  import opened Entries
  import opened Fingerprint
  import opened Codec
  import opened Diff
  import opened Resources
  import opened ResourceSafety

  lemma PrintReads(c: Codec, known: set<Text>, doc: Document)
    requires DocFits(c, known, doc)
    ensures var p := PrintOf(doc);
      && Decode(c, EncodeState(p.entries)) == Ok(p.entries)
      && Good(c, known, p.entries) && Sorted(p.entries) && |p.entries| == |doc.entries|
  {
    var p := PrintOf(doc);
    SortIsStable(doc.entries);
    SortKeepsLength(doc.entries);
    SortOfSorted(p.entries);
    SortKeepsGood(c, known, doc.entries);
    StateRoundTrip(c, p.entries);
    forall e | e in p.entries ensures e.hash == c.hashOf(e.url) {
      var i :| 0 <= i < |p.entries| && p.entries[i] == e;
    }
  }

  /** The state after the state object has been written, or need not be. */
  function Stated(s: Store, url: Text, p: Print): Store { PerformAll(s, StatePut(s, url, p)) }

  lemma StatedIs(s: Store, url: Text, p: Print)
    ensures Stated(s, url, p) ==
      if WritesState(s, url, p)
      then s.(objects := s.objects[StateKey(url, p.metadata) := StateBlob(EncodeState(p.entries))]) else s
  {
    var put := StatePut(s, url, p);
    if put != [] {
      assert put[1..] == [];
      assert PerformAll(s, put) == PerformAll(Perform(s, put[0]), put[1..]);
    }
  }

  lemma StatePutIsSafe(c: Codec, known: set<Text>, s: Store, url: Text, doc: Document)
    requires DocFits(c, known, doc)
    ensures SafeAll(c, known, s, StatePut(s, url, PrintOf(doc)))
  {
    var p := PrintOf(doc);
    PrintReads(c, known, doc);
    if WritesState(s, url, p) {
      var key, blob := StateKey(url, p.metadata), StateBlob(EncodeState(p.entries));
      assert EntriesAt(c, key, map[key := blob]) == p.entries;
      assert StatePut(s, url, p)[1..] == [];
    }
  }

  lemma StatedKeepsInv(c: Codec, known: set<Text>, s: Store, url: Text, doc: Document)
    requires Inv(c, known, s) && DocFits(c, known, doc) && NoCollisions(c, known)
    ensures Inv(c, known, Stated(s, url, PrintOf(doc)))
  {
    var ws := StatePut(s, url, PrintOf(doc));
    StatePutIsSafe(c, known, s, url, doc);
    assert ws[..|ws|] == ws;
    PrefixKeepsInv(c, known, s, ws, |ws|);
  }

  /** The object under the state key holds the document, key for key. */
  lemma StatedHolds(c: Codec, known: set<Text>, s: Store, url: Text, doc: Document, v: Validators)
    requires Inv(c, known, s) && DocFits(c, known, doc) && NoCollisions(c, known)
    ensures var p := PrintOf(doc); var key := StateKeyFor(s, url, p); var objects := Stated(s, url, p).objects;
      && RowFits(c, url, RowFor(key, p, v), objects)
      && Keys(EntriesAt(c, key, objects)) == Keys(p.entries) && Urls(EntriesAt(c, key, objects)) == Urls(p.entries)
  {
    var p := PrintOf(doc);
    var key := StateKeyFor(s, url, p);
    PrintReads(c, known, doc);
    StatedIs(s, url, p);
    var objects := Stated(s, url, p).objects;
    if WritesState(s, url, p) {
      assert EntriesAt(c, key, objects) == p.entries;
    } else {
      assert RowFits(c, url, s.rows[url], s.objects) && ObjectFits(c, known, key, s.objects);
      PrintDecides(c, known, EntriesAt(c, key, objects), p.entries);
    }
  }

  lemma {:induction false} SafeAppend(c: Codec, known: set<Text>, s: Store, a: seq<Write>, b: seq<Write>)
    requires SafeAll(c, known, s, a) && SafeAll(c, known, PerformAll(s, a), b)
    ensures SafeAll(c, known, s, a + b) && PerformAll(s, a + b) == PerformAll(PerformAll(s, a), b)
    decreases |a|
  {
    if a == [] {
      assert a + b == b;
    } else {
      hide Safe, Perform;
      SafeAppend(c, known, Perform(s, a[0]), a[1..], b);
      assert (a + b)[1..] == a[1..] + b;
    }
  }

  /** What follows the state object: perhaps a diff, then the row, then the run. */
  function Tail(c: Codec, s: Store, url: Text, p: Print, v: Validators, run: nat): seq<Write> {
    Rest(c, s, url, p, v, run, Stated(s, url, p).objects).writes
  }

  lemma WritesSplit(c: Codec, s: Store, url: Text, p: Print, v: Validators, run: nat)
    ensures ApplyPrint(c, s, url, p, v, run).writes == StatePut(s, url, p) + Tail(c, s, url, p, v, run)
  {
  }

  /** The previous state is always found and readable, so the diff is always taken. */
  lemma PreviousStateIsThere(c: Codec, known: set<Text>, s: Store, url: Text, doc: Document)
    requires Inv(c, known, s) && DocFits(c, known, doc) && NoCollisions(c, known) && url in s.rows
    ensures Readable(c, s.rows[url].stateKey, Stated(s, url, PrintOf(doc)).objects)
  {
    var p := PrintOf(doc);
    StatedKeepsInv(c, known, s, url, doc);
    StatedIs(s, url, p);
    assert RowFits(c, url, Stated(s, url, p).rows[url], Stated(s, url, p).objects);
  }

  /** The writes that follow the state object, case by case. */
  lemma TailIs(c: Codec, known: set<Text>, s: Store, url: Text, doc: Document, v: Validators, run: nat)
    requires Inv(c, known, s) && DocFits(c, known, doc) && NoCollisions(c, known)
    ensures var p := PrintOf(doc); var key := StateKeyFor(s, url, p);
      var tail, save := Tail(c, s, url, p, v, run), Save(url, RowFor(key, p, v));
      if url !in s.rows then tail == [save, Record(RunRecord(url, run, Baseline(key)))]
      else if s.rows[url].urlset == p.urlset then tail == [save, Record(RunRecord(url, run, SemanticUnchanged(key)))]
      else
        var before := EntriesAt(c, s.rows[url].stateKey, Stated(s, url, p).objects);
        var d, diff := DiffOf(before, p.entries), DiffKey(url, run, p.urlset);
        tail == [Put(diff, DiffBlob(d)), save,
                 Record(RunRecord(url, run, Changed(key, diff, |d.added|, |d.removed|, |d.modified|)))]
  {
    if url in s.rows { PreviousStateIsThere(c, known, s, url, doc); }
  }

  lemma TailIsSafe(c: Codec, known: set<Text>, s: Store, url: Text, doc: Document, v: Validators, run: nat)
    requires Inv(c, known, s) && DocFits(c, known, doc) && NoCollisions(c, known)
    ensures SafeAll(c, known, Stated(s, url, PrintOf(doc)), Tail(c, s, url, PrintOf(doc), v, run))
  {
    var p := PrintOf(doc);
    var key, stated := StateKeyFor(s, url, p), Stated(s, url, p);
    var tail, save := Tail(c, s, url, p, v, run), Save(url, RowFor(key, p, v));
    StatedHolds(c, known, s, url, doc, v);
    TailIs(c, known, s, url, doc, v, run);
    hide Stated, Tail, PrintOf, Keys, Urls, StateKeyFor, RowFor, Inv, DocFits, NoCollisions;
    if url !in s.rows || s.rows[url].urlset == p.urlset {
      SaveThenRecord(c, known, stated, save, tail[1]);
    } else {
      DiffThenSave(c, known, stated, tail[0], save, tail[2]);
    }
  }

  lemma SaveThenRecord(c: Codec, known: set<Text>, s: Store, save: Write, record: Write)
    requires save.Save? && record.Record? && Safe(c, known, s, save)
    ensures SafeAll(c, known, s, [save, record])
  {
    assert [save, record][1..] == [record] && [record][1..] == [];
  }

  lemma DiffThenSave(c: Codec, known: set<Text>, s: Store, put: Write, save: Write, record: Write)
    requires put.Put? && put.key.DiffKey? && put.blob.DiffBlob?
    requires save.Save? && record.Record? && Safe(c, known, s, save) && save.row.stateKey.StateKey?
    ensures SafeAll(c, known, s, [put, save, record])
  {
    var after := Perform(s, put);
    assert EntriesAt(c, save.row.stateKey, after.objects) == EntriesAt(c, save.row.stateKey, s.objects);
    SaveThenRecord(c, known, after, save, record);
    assert [put, save, record][1..] == [save, record];
  }

  /** A check only ever writes safely. */
  lemma CheckIsSafe(c: Codec, known: set<Text>, s: Store, url: Text, answer: Answer, run: nat)
    requires Inv(c, known, s) && AnswerFits(c, known, answer) && NoCollisions(c, known)
    ensures SafeAll(c, known, s, Check(c, s, url, answer, run).writes)
  {
    if answer.Body? {
      var p := PrintOf(answer.doc);
      StatePutIsSafe(c, known, s, url, answer.doc);
      TailIsSafe(c, known, s, url, answer.doc, answer.validators, run);
      SafeAppend(c, known, s, StatePut(s, url, p), Tail(c, s, url, p, answer.validators, run));
      WritesSplit(c, s, url, p, answer.validators, run);
    } else {
      var ws := Check(c, s, url, answer, run).writes;
      assert |ws| == 2 && !ws[0].Put? && !ws[0].Save? && !ws[1].Put? && !ws[1].Save?;
      assert ws[1..][1..] == [];
    }
  }

  predicate LosesState(w: Write) {
    w.Record? && w.record.outcome.Failed? &&
    (w.record.outcome.failure.PreviousStateMissing? || w.record.outcome.failure.PreviousStateInvalid?)
  }

  /** The failures of a lost or unreadable previous state never occur. */
  lemma PreviousStateNeverFails(c: Codec, known: set<Text>, s: Store, url: Text, answer: Answer, run: nat)
    requires Inv(c, known, s) && AnswerFits(c, known, answer) && NoCollisions(c, known)
    ensures forall i :: 0 <= i < |Check(c, s, url, answer, run).writes| ==>
                          !LosesState(Check(c, s, url, answer, run).writes[i])
  {
    if answer.Body? {
      var p := PrintOf(answer.doc);
      var put, tail := StatePut(s, url, p), Tail(c, s, url, p, answer.validators, run);
      TailIs(c, known, s, url, answer.doc, answer.validators, run);
      WritesSplit(c, s, url, p, answer.validators, run);
      assert Check(c, s, url, answer, run).writes == put + tail;
      assert forall i :: 0 <= i < |put| ==> put[i].Put?;
      hide Check, StatePut, Tail, Inv, NoCollisions, PrintOf;
    }
  }

  // ---------- runs with crashes ----------

  /** One check, of which only the first `cut` writes may have happened. */
  datatype Step = Step(url: Text, answer: Answer, run: nat, cut: nat)

  function Writes(c: Codec, s: Store, step: Step): seq<Write> {
    var ws := Check(c, s, step.url, step.answer, step.run).writes;
    if step.cut <= |ws| then ws[..step.cut] else ws
  }

  function Next(c: Codec, s: Store, step: Step): Store { PerformAll(s, Writes(c, s, step)) }

  function After(c: Codec, s: Store, steps: seq<Step>): Store
    decreases |steps|
  {
    if steps == [] then s else After(c, Next(c, s, steps[0]), steps[1..])
  }

  lemma StepKeepsInv(c: Codec, known: set<Text>, s: Store, step: Step)
    requires Inv(c, known, s) && AnswerFits(c, known, step.answer) && NoCollisions(c, known)
    ensures Inv(c, known, Next(c, s, step))
  {
    hide Check, Inv, SafeAll;
    var ws := Check(c, s, step.url, step.answer, step.run).writes;
    CheckIsSafe(c, known, s, step.url, step.answer, step.run);
    PrefixKeepsInv(c, known, s, ws, Min(step.cut, |ws|));
    assert ws[..|ws|] == ws;
  }

  /** Over any sequence of checks, each cut anywhere, current states exist and match their rows. */
  lemma {:induction false} CurrentStatesExist(c: Codec, known: set<Text>, s: Store, steps: seq<Step>)
    requires Inv(c, known, s) && NoCollisions(c, known)
    requires forall i :: 0 <= i < |steps| ==> AnswerFits(c, known, steps[i].answer)
    ensures Inv(c, known, After(c, s, steps))
    decreases |steps|
  {
    if steps != [] {
      hide Inv, Next;
      StepKeepsInv(c, known, s, steps[0]);
      assert forall i :: 0 <= i < |steps[1..]| ==> steps[1..][i] == steps[i + 1];
      CurrentStatesExist(c, known, Next(c, s, steps[0]), steps[1..]);
    }
  }
}

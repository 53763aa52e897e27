/** The recorded diffs of a resource, replayed on its baseline, give its current URLs. */
module ResourceReplay {
  import opened Prelude
  import opened Entries
  import opened Fingerprint
  import opened Codec
  import opened Diff
  import opened Resources
  import opened ResourceSafety
  import opened ResourceChecks

  function KeysAt(c: Codec, key: ObjectKey, objects: Objects): multiset<Key> { Keys(EntriesAt(c, key, objects)) }

  function DiffAt(key: ObjectKey, objects: Objects): DiffResult {
    if key in objects && objects[key].DiffBlob? then objects[key].diff else NOTHING
  }

  /** Starts at the recorded baseline and follows the recorded changes. */
  function Replayed(c: Codec, objects: Objects, runs: seq<RunRecord>, url: Text): multiset<Key>
    decreases |runs|
  {
    if runs == [] then multiset{}
    else
      var last, earlier := runs[|runs| - 1], runs[..|runs| - 1];
      if last.url != url then Replayed(c, objects, earlier, url)
      else if last.outcome.Baseline? then KeysAt(c, last.outcome.state, objects)
      else if last.outcome.Changed? then
        var d := DiffAt(last.outcome.diff, objects);
        Replayed(c, objects, earlier, url) - Keys(d.removed) + Keys(d.added)
      else Replayed(c, objects, earlier, url)
  }

  /** What a run refers to is stored. */
  predicate RunFits(record: RunRecord, objects: Objects) {
    match record.outcome
    case Baseline(state) => state.StateKey? && state in objects
    case Changed(_, diff, _, _, _) => diff.DiffKey? && diff in objects
    case _ => true
  }

  ghost predicate RunsFit(runs: seq<RunRecord>, objects: Objects) {
    forall i :: 0 <= i < |runs| ==> RunFits(runs[i], objects)
  }

  ghost predicate Tracks(c: Codec, objects: Objects, rows: map<Text, ResourceRow>, runs: seq<RunRecord>) {
    forall url :: url in rows ==> Replayed(c, objects, runs, url) == KeysAt(c, rows[url].stateKey, objects)
  }

  ghost predicate History(c: Codec, s: Store) { RunsFit(s.runs, s.objects) && Tracks(c, s.objects, s.rows, s.runs) }

  // ---------- writes that leave the history alone ----------

  lemma ReplayedAppend(c: Codec, objects: Objects, runs: seq<RunRecord>, record: RunRecord, url: Text)
    ensures Replayed(c, objects, runs + [record], url) ==
      if record.url != url then Replayed(c, objects, runs, url)
      else if record.outcome.Baseline? then KeysAt(c, record.outcome.state, objects)
      else if record.outcome.Changed? then
        Replayed(c, objects, runs, url) - Keys(DiffAt(record.outcome.diff, objects).removed)
          + Keys(DiffAt(record.outcome.diff, objects).added)
      else Replayed(c, objects, runs, url)
  {
    assert (runs + [record])[..|runs|] == runs;
  }

  /** One put leaves what one run refers to as it was. */
  lemma PutKeepsRun(c: Codec, known: set<Text>, objects: Objects, key: ObjectKey, blob: Blob, record: RunRecord)
    requires ObjectsFit(c, known, objects) && ObjectFits(c, known, key, map[key := blob]) && NoCollisions(c, known)
    requires RunFits(record, objects) && (key.DiffKey? ==> key !in objects)
    ensures RunFits(record, objects[key := blob])
    ensures record.outcome.Baseline? ==>
      KeysAt(c, record.outcome.state, objects[key := blob]) == KeysAt(c, record.outcome.state, objects)
    ensures record.outcome.Changed? ==>
      DiffAt(record.outcome.diff, objects[key := blob]) == DiffAt(record.outcome.diff, objects)
  {
    if record.outcome.Baseline? { PutKeepsEntries(c, known, objects, key, blob, record.outcome.state); }
  }

  lemma {:induction false} PutKeepsReplayed(c: Codec, known: set<Text>, objects: Objects, key: ObjectKey, blob: Blob,
                                            runs: seq<RunRecord>, url: Text)
    requires ObjectsFit(c, known, objects) && ObjectFits(c, known, key, map[key := blob]) && NoCollisions(c, known)
    requires RunsFit(runs, objects) && (key.DiffKey? ==> key !in objects)
    ensures Replayed(c, objects[key := blob], runs, url) == Replayed(c, objects, runs, url)
    decreases |runs|
  {
    if runs != [] {
      var last, earlier := runs[|runs| - 1], runs[..|runs| - 1];
      assert RunFits(last, objects);
      assert runs == earlier + [last];
      assert RunsFit(earlier, objects);
      hide ObjectsFit, ObjectFits, NoCollisions, Keys, EntriesAt, DiffAt, Replayed, RunFits, RunsFit;
      PutKeepsReplayed(c, known, objects, key, blob, earlier, url);
      PutKeepsRun(c, known, objects, key, blob, last);
      ReplayedAppend(c, objects, earlier, last, url);
      ReplayedAppend(c, objects[key := blob], earlier, last, url);
    }
  }

  lemma PutKeepsHistory(c: Codec, known: set<Text>, s: Store, key: ObjectKey, blob: Blob)
    requires Inv(c, known, s) && NoCollisions(c, known) && History(c, s)
    requires Safe(c, known, s, Put(key, blob)) && (key.DiffKey? ==> key !in s.objects)
    ensures History(c, Perform(s, Put(key, blob)))
  {
    var objects := s.objects[key := blob];
    forall url | url in s.rows ensures Replayed(c, objects, s.runs, url) == KeysAt(c, s.rows[url].stateKey, objects) {
      assert RowFits(c, url, s.rows[url], s.objects);
      PutKeepsReplayed(c, known, s.objects, key, blob, s.runs, url);
      PutKeepsEntries(c, known, s.objects, key, blob, s.rows[url].stateKey);
    }
    forall i | 0 <= i < |s.runs| ensures RunFits(s.runs[i], objects) { assert RunFits(s.runs[i], s.objects); }
  }

  /** A row and its run, written together, carry the history on. */
  lemma SaveAndRecordKeepHistory(c: Codec, s: Store, url: Text, row: ResourceRow, record: RunRecord)
    requires History(c, s) && record.url == url && RunFits(record, s.objects)
    requires Replayed(c, s.objects, s.runs + [record], url) == KeysAt(c, row.stateKey, s.objects)
    ensures History(c, PerformAll(s, [Save(url, row), Record(record)]))
  {
    var t := PerformAll(s, [Save(url, row), Record(record)]);
    PairPerforms(s, Save(url, row), Record(record));
    forall u | u in t.rows ensures Replayed(c, t.objects, t.runs, u) == KeysAt(c, t.rows[u].stateKey, t.objects) {
      ReplayedAppend(c, s.objects, s.runs, record, u);
    }
  }

  lemma PairPerforms(s: Store, a: Write, b: Write)
    ensures PerformAll(s, [a, b]) == Perform(Perform(s, a), b)
  {
    hide Perform;
    assert [a, b][1..] == [b] && [b][1..] == [];
    assert PerformAll(Perform(s, a), [b]) == PerformAll(Perform(Perform(s, a), b), []);
  }

  lemma OnePerforms(s: Store, w: Write)
    ensures PerformAll(s, [w]) == Perform(s, w)
  {
    hide Perform;
    assert [w][1..] == [];
    assert PerformAll(s, [w]) == PerformAll(Perform(s, w), []);
  }

  // ---------- a check that was not torn ----------

  predicate Torn(ws: seq<Write>, cut: nat) { 0 < cut < |ws| && ws[cut - 1].Save? }

  ghost predicate FreshRun(s: Store, url: Text, run: nat) {
    forall key :: key in s.objects && key.DiffKey? && key.url == url ==> key.run != run
  }

  lemma StatedKeepsHistory(c: Codec, known: set<Text>, s: Store, url: Text, doc: Document)
    requires Inv(c, known, s) && NoCollisions(c, known) && DocFits(c, known, doc) && History(c, s)
    ensures History(c, Stated(s, url, PrintOf(doc)))
  {
    var p := PrintOf(doc);
    StatedIs(s, url, p);
    if WritesState(s, url, p) {
      StatePutIsSafe(c, known, s, url, doc);
      PutKeepsHistory(c, known, s, StateKey(url, p.metadata), StateBlob(EncodeState(p.entries)));
    }
  }

  lemma BaselineKeepsHistory(c: Codec, known: set<Text>, s: Store, url: Text, doc: Document, v: Validators, run: nat)
    requires Inv(c, known, s) && NoCollisions(c, known) && DocFits(c, known, doc) && History(c, s) && url !in s.rows
    ensures var p := PrintOf(doc); History(c, PerformAll(Stated(s, url, p), Tail(c, s, url, p, v, run)))
  {
    var p := PrintOf(doc);
    var key := StateKeyFor(s, url, p);
    StatedKeepsHistory(c, known, s, url, doc);
    StatedHolds(c, known, s, url, doc, v);
    TailIs(c, known, s, url, doc, v, run);
    hide Stated, PrintOf, History, Tail, Inv, DocFits, NoCollisions;
    var stated, record := Stated(s, url, p), RunRecord(url, run, Baseline(key));
    ReplayedAppend(c, stated.objects, stated.runs, record, url);
    SaveAndRecordKeepHistory(c, stated, url, RowFor(key, p, v), record);
  }

  lemma UnchangedKeepsHistory(c: Codec, known: set<Text>, s: Store, url: Text, doc: Document, v: Validators, run: nat)
    requires Inv(c, known, s) && NoCollisions(c, known) && DocFits(c, known, doc) && History(c, s)
    requires url in s.rows && s.rows[url].urlset == PrintOf(doc).urlset
    ensures var p := PrintOf(doc); History(c, PerformAll(Stated(s, url, p), Tail(c, s, url, p, v, run)))
  {
    var p := PrintOf(doc);
    var key := StateKeyFor(s, url, p);
    StatedKeepsHistory(c, known, s, url, doc);
    StatedHolds(c, known, s, url, doc, v);
    TailIs(c, known, s, url, doc, v, run);
    UrlsetKept(c, known, s, url, doc);
    StatedIs(s, url, p);
    var stated, record := Stated(s, url, p), RunRecord(url, run, SemanticUnchanged(key));
    assert Replayed(c, stated.objects, stated.runs, url) == KeysAt(c, s.rows[url].stateKey, stated.objects);
    hide Stated, PrintOf, History, Tail, Inv, DocFits, NoCollisions;
    ReplayedAppend(c, stated.objects, stated.runs, record, url);
    SaveAndRecordKeepHistory(c, stated, url, RowFor(key, p, v), record);
  }

  /** The same URL-set fingerprint means the same keys. */
  lemma UrlsetKept(c: Codec, known: set<Text>, s: Store, url: Text, doc: Document)
    requires Inv(c, known, s) && NoCollisions(c, known) && DocFits(c, known, doc)
    requires url in s.rows && s.rows[url].urlset == PrintOf(doc).urlset
    ensures KeysAt(c, s.rows[url].stateKey, Stated(s, url, PrintOf(doc)).objects) == Keys(PrintOf(doc).entries)
  {
    var p := PrintOf(doc);
    StatedKeepsInv(c, known, s, url, doc);
    StatedIs(s, url, p);
    PrintReads(c, known, doc);
    var objects, before := Stated(s, url, p).objects, s.rows[url].stateKey;
    assert RowFits(c, url, s.rows[url], objects) && ObjectFits(c, known, before, objects);
    PrintDecides(c, known, EntriesAt(c, before, objects), p.entries);
  }

  lemma DiffLeads(was: seq<Entry>, now: seq<Entry>)
    ensures var d := DiffOf(was, now); Keys(was) - Keys(d.removed) + Keys(d.added) == Keys(now)
  {
    DiffIsMultisetDifference(was, now);
  }

  /** Before the diff is written, the history leads to the previous state and the new one is stored. */
  lemma ChangeIsReady(c: Codec, known: set<Text>, s: Store, url: Text, doc: Document, v: Validators, run: nat)
    requires Inv(c, known, s) && NoCollisions(c, known) && DocFits(c, known, doc) && History(c, s)
    requires url in s.rows && FreshRun(s, url, run)
    ensures var p := PrintOf(doc); var stated, key := Stated(s, url, p), StateKeyFor(s, url, p);
      && DiffKey(url, run, p.urlset) !in stated.objects && key.StateKey?
      && Replayed(c, stated.objects, stated.runs, url) == KeysAt(c, s.rows[url].stateKey, stated.objects)
      && KeysAt(c, key, stated.objects) == Keys(p.entries)
  {
    var p := PrintOf(doc);
    assert StateKeyFor(s, url, p).StateKey? by { assert RowFits(c, url, s.rows[url], s.objects); }
    hide Inv, NoCollisions, DocFits, Keys, EntriesAt, Replayed, PrintOf, Stated, RunsFit, RowFits, WritesState;
    StatedIs(s, url, p);
    assert url in Stated(s, url, p).rows && Stated(s, url, p).rows[url] == s.rows[url];
    assert DiffKey(url, run, p.urlset) !in Stated(s, url, p).objects;
    hide FreshRun;
    StatedKeepsHistory(c, known, s, url, doc);
    hide History;
    StatedHolds(c, known, s, url, doc, Validators(None, None));
    assert Tracks(c, Stated(s, url, p).objects, Stated(s, url, p).rows, Stated(s, url, p).runs) by { HistoryTracks(c, Stated(s, url, p)); }
  }

  lemma HistoryTracks(c: Codec, s: Store)
    requires History(c, s)
    ensures Tracks(c, s.objects, s.rows, s.runs)
  {
  }

  lemma ChangeKeepsHistory(c: Codec, known: set<Text>, s: Store, url: Text, doc: Document, v: Validators, run: nat)
    requires Inv(c, known, s) && NoCollisions(c, known) && DocFits(c, known, doc) && History(c, s)
    requires url in s.rows && s.rows[url].urlset != PrintOf(doc).urlset && FreshRun(s, url, run)
    ensures var p := PrintOf(doc); History(c, PerformAll(Stated(s, url, p), Tail(c, s, url, p, v, run)))
  {
    hide Inv, NoCollisions, DocFits, History, Keys, EntriesAt, Replayed, PrintOf, Tail, Stated, StateKeyFor, PerformAll, FreshRun;
    var p := PrintOf(doc);
    var stated, before, tail := Stated(s, url, p), s.rows[url].stateKey, Tail(c, s, url, p, v, run);
    var row := RowFor(StateKeyFor(s, url, p), p, v);
    var d, diff := DiffOf(EntriesAt(c, before, stated.objects), p.entries), DiffKey(url, run, p.urlset);
    ChangeIsReady(c, known, s, url, doc, v, run);
    TailIs(c, known, s, url, doc, v, run);
    assert tail == [Put(diff, DiffBlob(d))] + [Save(url, row), tail[2]];
    StatedKeepsInv(c, known, s, url, doc);
    StatedKeepsHistory(c, known, s, url, doc);
    DiffLeads(EntriesAt(c, before, stated.objects), p.entries);
    DiffKeepsHistory(c, known, stated, url, row, diff, d, tail[2].record, p.entries);
  }

  /** The diff object alone changes nothing that the history refers to. */
  lemma DiffPutKeeps(c: Codec, known: set<Text>, s: Store, url: Text, key: ObjectKey, diff: ObjectKey, d: DiffResult)
    requires Inv(c, known, s) && NoCollisions(c, known) && History(c, s)
    requires diff.DiffKey? && diff !in s.objects && key.StateKey?
    ensures var t := Perform(s, Put(diff, DiffBlob(d)));
      && History(c, t) && diff in t.objects && DiffAt(diff, t.objects) == d
      && KeysAt(c, key, t.objects) == KeysAt(c, key, s.objects)
      && Replayed(c, t.objects, t.runs, url) == Replayed(c, s.objects, s.runs, url)
  {
    var t := Perform(s, Put(diff, DiffBlob(d)));
    assert EntriesAt(c, key, t.objects) == EntriesAt(c, key, s.objects);
    PutKeepsHistory(c, known, s, diff, DiffBlob(d));
    hide Keys, EntriesAt, Readable, Replayed, Tracks, RowsFit, NoCollisions;
    PutKeepsReplayed(c, known, s.objects, diff, DiffBlob(d), s.runs, url);
  }

  /** The row and the run that names the diff. */
  lemma ChangeRecorded(c: Codec, s: Store, url: Text, row: ResourceRow, record: RunRecord, d: DiffResult)
    requires History(c, s) && record.url == url && record.outcome.Changed?
    requires record.outcome.diff.DiffKey? && record.outcome.diff in s.objects && DiffAt(record.outcome.diff, s.objects) == d
    requires Replayed(c, s.objects, s.runs, url) - Keys(d.removed) + Keys(d.added) == KeysAt(c, row.stateKey, s.objects)
    ensures History(c, PerformAll(s, [Save(url, row), Record(record)]))
  {
    hide History, Replayed, Keys, EntriesAt, DiffAt;
    ReplayedAppend(c, s.objects, s.runs, record, url);
    SaveAndRecordKeepHistory(c, s, url, row, record);
  }

  lemma FirstPerforms(s: Store, w: Write, ws: seq<Write>)
    ensures PerformAll(s, [w] + ws) == PerformAll(Perform(s, w), ws)
  {
    assert ([w] + ws)[1..] == ws;
  }

  lemma DiffKeepsHistory(c: Codec, known: set<Text>, s: Store, url: Text, row: ResourceRow, diff: ObjectKey, d: DiffResult,
                         record: RunRecord, now: seq<Entry>)
    requires Inv(c, known, s) && NoCollisions(c, known) && History(c, s)
    requires diff.DiffKey? && diff !in s.objects && row.stateKey.StateKey?
    requires record.url == url && record.outcome.Changed? && record.outcome.diff == diff
    requires Replayed(c, s.objects, s.runs, url) - Keys(d.removed) + Keys(d.added) == Keys(now)
    requires KeysAt(c, row.stateKey, s.objects) == Keys(now)
    ensures History(c, PerformAll(s, [Put(diff, DiffBlob(d))] + [Save(url, row), Record(record)]))
  {
    hide *;
    DiffPutKeeps(c, known, s, url, row.stateKey, diff, d);
    ChangeRecorded(c, Perform(s, Put(diff, DiffBlob(d))), url, row, record, d);
    FirstPerforms(s, Put(diff, DiffBlob(d)), [Save(url, row), Record(record)]);
  }

  // ---------- over runs with crashes ----------

  /** A write that no history depends on. */
  ghost predicate Quiet(c: Codec, known: set<Text>, s: Store, w: Write) {
    match w
    case Put(key, blob) => Safe(c, known, s, w) && (key.DiffKey? ==> key !in s.objects)
    case Save(_, _) => false
    case Record(record) => !record.outcome.Baseline? && !record.outcome.Changed?
    case _ => true
  }

  lemma QuietKeepsHistory(c: Codec, known: set<Text>, s: Store, w: Write)
    requires Inv(c, known, s) && NoCollisions(c, known) && History(c, s) && Quiet(c, known, s, w)
    ensures History(c, Perform(s, w))
  {
    match w
    case Put(key, blob) => PutKeepsHistory(c, known, s, key, blob);
    case Record(record) =>
      forall url | url in s.rows
        ensures Replayed(c, s.objects, s.runs + [record], url) == KeysAt(c, s.rows[url].stateKey, s.objects)
      {
        ReplayedAppend(c, s.objects, s.runs, record, url);
      }
    case _ =>
  }

  /** A check of a body that stopped before its row was saved has only put objects. */
  lemma EarlyCutPuts(c: Codec, known: set<Text>, s: Store, step: Step)
    requires Inv(c, known, s) && NoCollisions(c, known) && AnswerFits(c, known, step.answer) && step.answer.Body?
    requires var ws := Check(c, s, step.url, step.answer, step.run).writes; step.cut < |ws| && !Torn(ws, step.cut)
    ensures var p := PrintOf(step.answer.doc);
      var put, ws := StatePut(s, step.url, p), Check(c, s, step.url, step.answer, step.run).writes[..step.cut];
      || ws == [] || ws == put
      || exists d :: ws == put + [Put(DiffKey(step.url, step.run, p.urlset), DiffBlob(d))]
  {
    var p, doc := PrintOf(step.answer.doc), step.answer.doc;
    var put, tail := StatePut(s, step.url, p), Tail(c, s, step.url, p, step.answer.validators, step.run);
    var ws := put + tail;
    assert |put| <= 1 && DocFits(c, known, doc);
    hide Tail, StatePut, PrintOf, Inv, DocFits, NoCollisions, AnswerFits;
    WritesSplit(c, s, step.url, p, step.answer.validators, step.run);
    TailIs(c, known, s, step.url, doc, step.answer.validators, step.run);
    assert Check(c, s, step.url, step.answer, step.run).writes == ws;
    hide Check;
    assert step.cut > |put| ==> ws[step.cut - 1] == tail[step.cut - 1 - |put|];
    if 0 < step.cut {
      if step.cut <= |put| {
        assert ws[..step.cut] == put;
      } else if |tail| == 3 && step.cut == |put| + 1 {
        assert ws[..step.cut] == put + [tail[0]];
      }
    }
  }

  lemma EarlyCutKeepsHistory(c: Codec, known: set<Text>, s: Store, step: Step)
    requires Inv(c, known, s) && NoCollisions(c, known) && AnswerFits(c, known, step.answer) && History(c, s)
    requires step.answer.Body? && FreshRun(s, step.url, step.run)
    requires var ws := Check(c, s, step.url, step.answer, step.run).writes; step.cut < |ws| && !Torn(ws, step.cut)
    ensures History(c, Next(c, s, step))
  {
    var p := PrintOf(step.answer.doc);
    var put, ws := StatePut(s, step.url, p), Check(c, s, step.url, step.answer, step.run).writes[..step.cut];
    EarlyCutPuts(c, known, s, step);
    assert DocFits(c, known, step.answer.doc);
    hide Torn, Inv, NoCollisions, DocFits, History, FreshRun, PrintOf, Check, StatePut;
    if ws == put {
      StatedKeepsHistory(c, known, s, step.url, step.answer.doc);
    } else if ws != [] {
      var d :| ws == put + [Put(DiffKey(step.url, step.run, p.urlset), DiffBlob(d))];
      DiffCutKeepsHistory(c, known, s, step.url, step.answer.doc, step.run, d);
    }
  }

  lemma DiffCutKeepsHistory(c: Codec, known: set<Text>, s: Store, url: Text, doc: Document, run: nat, d: DiffResult)
    requires Inv(c, known, s) && NoCollisions(c, known) && DocFits(c, known, doc) && History(c, s) && FreshRun(s, url, run)
    ensures var p := PrintOf(doc);
      History(c, PerformAll(s, StatePut(s, url, p) + [Put(DiffKey(url, run, p.urlset), DiffBlob(d))]))
  {
    var p := PrintOf(doc);
    var stated, diff := Stated(s, url, p), Put(DiffKey(url, run, p.urlset), DiffBlob(d));
    StatedIs(s, url, p);
    assert Quiet(c, known, stated, diff);
    hide Inv, NoCollisions, History, Quiet, DocFits, StatePut, PrintOf;
    StatedKeepsHistory(c, known, s, url, doc);
    StatedKeepsInv(c, known, s, url, doc);
    QuietKeepsHistory(c, known, stated, diff);
    AppendPerforms(s, StatePut(s, url, p), [diff]);
    OnePerforms(stated, diff);
  }

  lemma {:induction false} AppendPerforms(s: Store, a: seq<Write>, b: seq<Write>)
    ensures PerformAll(s, a + b) == PerformAll(PerformAll(s, a), b)
    decreases |a|
  {
    if a == [] {
      assert a + b == b;
    } else {
      hide Perform;
      AppendPerforms(Perform(s, a[0]), a[1..], b);
      assert (a + b)[1..] == a[1..] + b;
    }
  }

  lemma WholeCheckKeepsHistory(c: Codec, known: set<Text>, s: Store, url: Text, doc: Document, v: Validators, run: nat)
    requires Inv(c, known, s) && NoCollisions(c, known) && DocFits(c, known, doc) && History(c, s) && FreshRun(s, url, run)
    ensures History(c, PerformAll(s, Check(c, s, url, Body(doc, v), run).writes))
  {
    hide Inv, NoCollisions, DocFits, History, FreshRun, ApplyPrint, Tail, PrintOf;
    var p := PrintOf(doc);
    if url !in s.rows {
      BaselineKeepsHistory(c, known, s, url, doc, v, run);
    } else if s.rows[url].urlset == p.urlset {
      UnchangedKeepsHistory(c, known, s, url, doc, v, run);
    } else {
      ChangeKeepsHistory(c, known, s, url, doc, v, run);
    }
    AppendPerforms(s, StatePut(s, url, p), Tail(c, s, url, p, v, run));
    WritesSplit(c, s, url, p, v, run);
  }

  /** Two quiet writes, cut anywhere. */
  lemma QuietPairKeepsHistory(c: Codec, known: set<Text>, s: Store, a: Write, b: Write, cut: nat)
    requires Inv(c, known, s) && NoCollisions(c, known) && History(c, s) && cut <= 2
    requires Quiet(c, known, s, a) && Safe(c, known, s, a) && Quiet(c, known, Perform(s, a), b)
    ensures History(c, PerformAll(s, [a, b][..cut]))
  {
    hide Inv, NoCollisions, History, Quiet, Safe, Perform;
    QuietKeepsHistory(c, known, s, a);
    PerformKeepsInv(c, known, s, a);
    QuietKeepsHistory(c, known, Perform(s, a), b);
    if cut == 0 {
      assert [a, b][..0] == [];
    } else if cut == 1 {
      assert [a, b][..1] == [a];
      OnePerforms(s, a);
    } else {
      assert [a, b][..2] == [a, b];
      PairPerforms(s, a, b);
    }
  }

  lemma BodilessIsQuiet(c: Codec, known: set<Text>, s: Store, url: Text, answer: Answer, run: nat)
    requires !answer.Body?
    ensures var ws := Check(c, s, url, answer, run).writes;
      && |ws| == 2 && Quiet(c, known, s, ws[0]) && Safe(c, known, s, ws[0])
      && Quiet(c, known, Perform(s, ws[0]), ws[1])
  {
    hide LoadIndex;
  }

  lemma BodilessKeepsHistory(c: Codec, known: set<Text>, s: Store, step: Step)
    requires Inv(c, known, s) && NoCollisions(c, known) && History(c, s) && !step.answer.Body?
    ensures History(c, Next(c, s, step))
  {
    hide Inv, NoCollisions, History, Quiet, Safe, Perform, Check, PerformAll;
    var ws := Check(c, s, step.url, step.answer, step.run).writes;
    BodilessIsQuiet(c, known, s, step.url, step.answer, step.run);
    assert ws == [ws[0], ws[1]] == ws[..2];
    QuietPairKeepsHistory(c, known, s, ws[0], ws[1], if step.cut <= 2 then step.cut else 2);
  }

  /** No check was cut between saving its row and recording its run; every run id was new. */
  ghost predicate Whole(c: Codec, known: set<Text>, s: Store, steps: seq<Step>)
    decreases |steps|
  {
    steps == [] || (
      && AnswerFits(c, known, steps[0].answer) && FreshRun(s, steps[0].url, steps[0].run)
      && !Torn(Check(c, s, steps[0].url, steps[0].answer, steps[0].run).writes, steps[0].cut)
      && Whole(c, known, Next(c, s, steps[0]), steps[1..]))
  }

  lemma StepKeepsHistory(c: Codec, known: set<Text>, s: Store, step: Step)
    requires Inv(c, known, s) && NoCollisions(c, known) && AnswerFits(c, known, step.answer) && History(c, s)
    requires FreshRun(s, step.url, step.run) && !Torn(Check(c, s, step.url, step.answer, step.run).writes, step.cut)
    ensures History(c, Next(c, s, step))
  {
    hide Inv, NoCollisions, History, FreshRun, DocFits, Check;
    var ws := Check(c, s, step.url, step.answer, step.run).writes;
    assert ws[..|ws|] == ws;
    if !step.answer.Body? {
      BodilessKeepsHistory(c, known, s, step);
    } else if step.cut < |ws| {
      EarlyCutKeepsHistory(c, known, s, step);
    } else {
      WholeCheckKeepsHistory(c, known, s, step.url, step.answer.doc, step.answer.validators, step.run);
    }
  }

  /**
   Over any sequence of checks, cut anywhere but between a saved row and its recorded run, the
   recorded diffs replayed on the recorded baseline give the URLs of the current state.
   */
  lemma {:induction false} ReplayGivesCurrent(c: Codec, known: set<Text>, s: Store, steps: seq<Step>)
    requires Inv(c, known, s) && NoCollisions(c, known) && History(c, s) && Whole(c, known, s, steps)
    ensures History(c, After(c, s, steps))
    decreases |steps|
  {
    if steps != [] {
      hide Inv, History, Next, NoCollisions;
      StepKeepsInv(c, known, s, steps[0]);
      StepKeepsHistory(c, known, s, steps[0]);
      ReplayGivesCurrent(c, known, Next(c, s, steps[0]), steps[1..]);
    }
  }
}

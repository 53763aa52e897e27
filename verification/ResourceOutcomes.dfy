/** What a whole check leaves behind: the row, the run, the objects and the report, for each kind of answer. */
module ResourceOutcomes {
  import opened Prelude
  import opened Entries
  import opened Fingerprint
  import opened Codec
  import opened Diff
  import opened Resources
  import opened ResourceSafety
  import opened ResourceChecks
  import opened ResourceReplay

  function Checked(c: Codec, s: Store, url: Text, answer: Answer, run: nat): Store { PerformAll(s, Check(c, s, url, answer, run).writes) }

  // ---------- answers without a body ----------

  /** The failure that an answer stands for, if it stands for one. */
  function FailureOf(s: Store, url: Text, answer: Answer): Option<Failure> {
    match answer
    case NoAnswer => Some(FetchError)
    case Unchanged(_) => if url in s.rows then None else Some(Unexpected304)
    case Status(code) => Some(HttpStatus(code))
    case Garbage => Some(ParseError)
    case Body(_, _) => None
  }

  /** A failed check only records its run, under the failure of its answer. */
  lemma FailureTells(c: Codec, s: Store, url: Text, answer: Answer, run: nat)
    requires FailureOf(s, url, answer).Some?
    ensures Checked(c, s, url, answer, run) == s.(runs := s.runs + [RunRecord(url, run, Failed(FailureOf(s, url, answer).value))])
    ensures var r := Check(c, s, url, answer, run).report; r.failed && r.state.None? && r.links == [] && r.urlCount == 0
  {
    PairPerforms(s, Fail(url), Record(RunRecord(url, run, Failed(FailureOf(s, url, answer).value))));
  }

  /** A 304 keeps the row but for the validators it brings, and reports what is stored. */
  lemma UnchangedTells(c: Codec, s: Store, url: Text, v: Validators, run: nat)
    requires url in s.rows
    ensures var t, was, report := Checked(c, s, url, Unchanged(v), run), s.rows[url], Check(c, s, url, Unchanged(v), run).report;
      && url in t.rows && t.rows == s.rows[url := t.rows[url]] && t.objects == s.objects
      && t.runs == s.runs + [RunRecord(url, run, NotModified(was.stateKey))]
      && t.rows[url] == was.(validators := t.rows[url].validators)
      && t.rows[url].validators.etag == (if v.etag.Some? then v.etag else was.validators.etag)
      && t.rows[url].validators.lastModified == (if v.lastModified.Some? then v.lastModified else was.validators.lastModified)
      && !report.failed && report.kind == was.kind && report.state == Some(was.stateKey) && report.urlCount == was.urlCount
      && report.links == if was.kind.Index? then Urls(EntriesAt(c, was.stateKey, s.objects)) else []
  {
    PairPerforms(s, Refresh(url, v), Record(RunRecord(url, run, NotModified(s.rows[url].stateKey))));
    hide Decode;
  }

  // ---------- documents ----------

  /** The row says what the document says, and how it was fetched. */
  predicate RowTells(row: ResourceRow, doc: Document, v: Validators) {
    var sorted := Sort(doc.entries);
    && row.kind == doc.kind && row.content == doc.content && row.validators == v && row.urlCount == |sorted|
    && row.urlset == UrlsetPayload(sorted) && row.metadata == MetadataPayload(sorted)
  }

  predicate ReportTells(report: Report, row: ResourceRow, doc: Document) {
    && !report.failed && report.kind == doc.kind && report.state == Some(row.stateKey) && report.urlCount == row.urlCount
    && report.links == if doc.kind.Index? then Urls(Sort(doc.entries)) else []
  }

  /** What the check of a document records against the row there was. */
  ghost predicate OutcomeTells(c: Codec, s: Store, t: Store, url: Text, outcome: Outcome, doc: Document, run: nat)
    requires url in t.rows
  {
    var row, now := t.rows[url], Keys(doc.entries);
    if url !in s.rows then outcome == Baseline(row.stateKey)
    else if s.rows[url].urlset == row.urlset then outcome == SemanticUnchanged(row.stateKey)
    else
      var was, diff := Keys(EntriesAt(c, s.rows[url].stateKey, s.objects)), DiffKey(url, run, row.urlset);
      && outcome.Changed? && outcome.state == row.stateKey && outcome.diff == diff
      && outcome.added == |now - was| && outcome.removed == |was - now|
      && diff in t.objects && t.objects[diff].DiffBlob?
      && Keys(t.objects[diff].diff.added) == now - was && Keys(t.objects[diff].diff.removed) == was - now
      && outcome.modified == |t.objects[diff].diff.modified| && Keys(t.objects[diff].diff.modified) <= was * now
  }

  /** Objects are only added: the state unless both fingerprints were stored, and a diff if the URLs changed. */
  ghost predicate ObjectsTell(s: Store, t: Store, url: Text, doc: Document, run: nat)
    requires url in t.rows
  {
    var row, state, diff := t.rows[url], StateKey(url, MetadataPayload(Sort(doc.entries))), DiffKey(url, run, UrlsetPayload(Sort(doc.entries)));
    var stored := url in s.rows && s.rows[url].urlset == row.urlset && s.rows[url].metadata == row.metadata;
    && (if stored then row.stateKey == s.rows[url].stateKey else row.stateKey == state)
    && (!stored ==> state in t.objects && t.objects[state] == StateBlob(EncodeState(Sort(doc.entries))))
    && (forall key :: key in s.objects ==> key in t.objects)
    && (forall key :: key in t.objects && (key !in s.objects || t.objects[key] != s.objects[key]) ==>
          (key == state && !stored) || (key == diff && url in s.rows && s.rows[url].urlset != row.urlset))
  }

  lemma {:induction false} KeysCount(es: seq<Entry>)
    ensures |Keys(es)| == |es|
  {
    if es != [] { KeysCount(es[1..]); }
  }

  /** The previous state's keys, read before or after the new state was written. */
  lemma SameBefore(c: Codec, known: set<Text>, s: Store, url: Text, doc: Document)
    requires Inv(c, known, s) && DocFits(c, known, doc) && NoCollisions(c, known) && url in s.rows
    ensures Keys(EntriesAt(c, s.rows[url].stateKey, Stated(s, url, PrintOf(doc)).objects)) == Keys(EntriesAt(c, s.rows[url].stateKey, s.objects))
  {
    var p, key := PrintOf(doc), s.rows[url].stateKey;
    StatedIs(s, url, p);
    StatePutIsSafe(c, known, s, url, doc);
    assert RowFits(c, url, s.rows[url], s.objects);
    if WritesState(s, url, p) {
      PutKeepsEntries(c, known, s.objects, StateKey(url, p.metadata), StateBlob(EncodeState(p.entries)), key);
    }
  }

  /** The store after the check of a document, case by case. */
  lemma CheckedIs(c: Codec, known: set<Text>, s: Store, url: Text, doc: Document, v: Validators, run: nat)
    requires Inv(c, known, s) && DocFits(c, known, doc) && NoCollisions(c, known)
    ensures var p := PrintOf(doc); var stated, row := Stated(s, url, p), RowFor(StateKeyFor(s, url, p), p, v);
      var t := Checked(c, s, url, Body(doc, v), run);
      if url !in s.rows then t == Store(stated.objects, s.rows[url := row], s.runs + [RunRecord(url, run, Baseline(row.stateKey))])
      else if s.rows[url].urlset == p.urlset then
        t == Store(stated.objects, s.rows[url := row], s.runs + [RunRecord(url, run, SemanticUnchanged(row.stateKey))])
      else
        var d := DiffOf(EntriesAt(c, s.rows[url].stateKey, stated.objects), p.entries);
        var diff := DiffKey(url, run, p.urlset);
        t == Store(stated.objects[diff := DiffBlob(d)], s.rows[url := row],
                   s.runs + [RunRecord(url, run, Changed(row.stateKey, diff, |d.added|, |d.removed|, |d.modified|))])
  {
    var p := PrintOf(doc);
    var stated, tail := Stated(s, url, p), Tail(c, s, url, p, v, run);
    CheckedJoins(c, s, url, doc, v, run);
    TailIs(c, known, s, url, doc, v, run);
    StatedKeepsRows(s, url, p);
    hide Tail, Checked, PrintOf, Inv, DocFits, NoCollisions, Stated, PerformAll, StateKeyFor, DiffOf, EntriesAt, RowFor;
    var row := RowFor(StateKeyFor(s, url, p), p, v);
    RowForKey(StateKeyFor(s, url, p), p, v);
    if url !in s.rows || s.rows[url].urlset == p.urlset {
      RowAndRun(stated, url, row, tail[1].record);
    } else {
      DiffRowAndRun(stated, url, row, tail[0].key, tail[0].blob, tail[2].record);
    }
  }

  lemma RowForKey(key: ObjectKey, p: Print, v: Validators)
    ensures RowFor(key, p, v).stateKey == key
  {
  }

  lemma RowAndRun(s: Store, url: Text, row: ResourceRow, record: RunRecord)
    ensures PerformAll(s, [Save(url, row), Record(record)]) == Store(s.objects, s.rows[url := row], s.runs + [record])
  {
    PairPerforms(s, Save(url, row), Record(record));
  }

  lemma DiffRowAndRun(s: Store, url: Text, row: ResourceRow, diff: ObjectKey, blob: Blob, record: RunRecord)
    ensures PerformAll(s, [Put(diff, blob), Save(url, row), Record(record)]) ==
            Store(s.objects[diff := blob], s.rows[url := row], s.runs + [record])
  {
    ThreeWrites(s, Put(diff, blob), Save(url, row), Record(record));
  }

  lemma CheckedJoins(c: Codec, s: Store, url: Text, doc: Document, v: Validators, run: nat)
    ensures Checked(c, s, url, Body(doc, v), run) == PerformAll(Stated(s, url, PrintOf(doc)), Tail(c, s, url, PrintOf(doc), v, run))
  {
    var p := PrintOf(doc);
    hide PrintOf, PerformAll, Tail, StatePut;
    WritesSplit(c, s, url, p, v, run);
    AppendPerforms(s, StatePut(s, url, p), Tail(c, s, url, p, v, run));
  }

  lemma StatedKeepsRows(s: Store, url: Text, p: Print)
    ensures Stated(s, url, p).rows == s.rows && Stated(s, url, p).runs == s.runs
  {
    StatedIs(s, url, p);
  }

  lemma ThreeWrites(s: Store, a: Write, b: Write, d: Write)
    ensures PerformAll(s, [a, b, d]) == Perform(Perform(Perform(s, a), b), d)
  {
    hide Perform;
    assert [a, b, d][1..] == [b, d];
    PairPerforms(Perform(s, a), b, d);
  }

  lemma DiffTells(was: seq<Entry>, es: seq<Entry>)
    ensures var d := DiffOf(was, es);
      && Keys(d.added) == Keys(es) - Keys(was) && Keys(d.removed) == Keys(was) - Keys(es) && Keys(d.modified) <= Keys(was) * Keys(es)
      && |d.added| == |Keys(es) - Keys(was)| && |d.removed| == |Keys(was) - Keys(es)|
  {
    DiffIsMultisetDifference(was, es);
    KeysCount(DiffOf(was, es).added);
    KeysCount(DiffOf(was, es).removed);
  }

  lemma ReportIs(c: Codec, known: set<Text>, s: Store, url: Text, doc: Document, v: Validators, run: nat)
    requires Inv(c, known, s) && DocFits(c, known, doc) && NoCollisions(c, known)
    ensures Check(c, s, url, Body(doc, v), run).report == ReportFor(StateKeyFor(s, url, PrintOf(doc)), PrintOf(doc))
  {
    if url in s.rows { PreviousStateIsThere(c, known, s, url, doc); }
  }

  lemma RowIsTold(s: Store, url: Text, doc: Document, v: Validators)
    ensures var p := PrintOf(doc); var row := RowFor(StateKeyFor(s, url, p), p, v);
      RowTells(row, doc, v) && ReportTells(ReportFor(row.stateKey, p), row, doc)
  {
    hide Sort, UrlsetPayload, MetadataPayload, StateKeyFor;
  }

  /** What is stored besides: the state, and perhaps the diff. */
  lemma ObjectsAreTold(s: Store, t: Store, url: Text, doc: Document, v: Validators, run: nat, blob: Blob)
    requires var p := PrintOf(doc); var diff := DiffKey(url, run, p.urlset);
      && t.rows == s.rows[url := RowFor(StateKeyFor(s, url, p), p, v)]
      && t.objects == if url in s.rows && s.rows[url].urlset != p.urlset then Stated(s, url, p).objects[diff := blob] else Stated(s, url, p).objects
    ensures url in t.rows && ObjectsTell(s, t, url, doc, run)
  {
    StatedIs(s, url, PrintOf(doc));
    hide Sort, UrlsetPayload, MetadataPayload, EncodeState, Stated, PerformAll;
  }

  lemma OutcomeIsTold(c: Codec, known: set<Text>, s: Store, t: Store, url: Text, doc: Document, v: Validators, run: nat, outcome: Outcome)
    requires Inv(c, known, s) && DocFits(c, known, doc) && NoCollisions(c, known)
    requires var p := PrintOf(doc); var key := StateKeyFor(s, url, p);
      && t.rows == s.rows[url := RowFor(key, p, v)]
      && if url !in s.rows then outcome == Baseline(key)
         else if s.rows[url].urlset == p.urlset then outcome == SemanticUnchanged(key)
         else
           var d := DiffOf(EntriesAt(c, s.rows[url].stateKey, Stated(s, url, p).objects), p.entries);
           var diff := DiffKey(url, run, p.urlset);
           diff in t.objects && t.objects[diff] == DiffBlob(d) && outcome == Changed(key, diff, |d.added|, |d.removed|, |d.modified|)
    ensures url in t.rows && OutcomeTells(c, s, t, url, outcome, doc, run)
  {
    var p := PrintOf(doc);
    if url in s.rows {
      SameBefore(c, known, s, url, doc);
      SortKeepsIds(doc.entries);
      assert Keys(p.entries) == Keys(doc.entries);
      hide Inv, DocFits, NoCollisions, PrintOf, EntriesAt, DiffOf, Keys, Stated, StateKeyFor;
      DiffTells(EntriesAt(c, s.rows[url].stateKey, Stated(s, url, p).objects), p.entries);
    }
  }

  /** A change against a state that is lost or unreadable: its own state is stored, the row stays, and the run says which. */
  lemma LostStateTells(c: Codec, s: Store, url: Text, doc: Document, v: Validators, run: nat)
    requires url in s.rows && s.rows[url].urlset != UrlsetPayload(Sort(doc.entries))
    requires var es, before := Sort(doc.entries), s.rows[url].stateKey;
      var stored := s.objects[StateKey(url, MetadataPayload(es)) := StateBlob(EncodeState(es))];
      before !in stored || !stored[before].StateBlob? || Decode(c, stored[before].rows).Err?
    ensures var es, before := Sort(doc.entries), s.rows[url].stateKey;
      var stored := s.objects[StateKey(url, MetadataPayload(es)) := StateBlob(EncodeState(es))];
      Checked(c, s, url, Body(doc, v), run) ==
        Store(stored, s.rows, s.runs + [RunRecord(url, run, Failed(if before in stored then PreviousStateInvalid else PreviousStateMissing))])
    ensures var r := Check(c, s, url, Body(doc, v), run).report; r.failed && r.state.None? && r.links == [] && r.urlCount == 0
  {
    var p, before := PrintOf(doc), s.rows[url].stateKey;
    var stated := Stated(s, url, p);
    StatedIs(s, url, p);
    CheckedJoins(c, s, url, doc, v, run);
    StatedKeepsRows(s, url, p);
    hide Sort, EncodeState, Decode, UrlsetPayload, MetadataPayload, PerformAll;
    PairPerforms(stated, Fail(url), Record(RunRecord(url, run, Failed(PreviousStateInvalid))));
    PairPerforms(stated, Fail(url), Record(RunRecord(url, run, Failed(PreviousStateMissing))));
  }

  /** The check of a document that fits: one row, one run, its objects and its report. */
  lemma DocumentTells(c: Codec, known: set<Text>, s: Store, url: Text, doc: Document, v: Validators, run: nat)
    requires Inv(c, known, s) && DocFits(c, known, doc) && NoCollisions(c, known)
    ensures var t, report := Checked(c, s, url, Body(doc, v), run), Check(c, s, url, Body(doc, v), run).report;
      && url in t.rows && t.rows == s.rows[url := t.rows[url]] && RowTells(t.rows[url], doc, v)
      && |t.runs| == |s.runs| + 1 && t.runs[..|s.runs|] == s.runs
      && t.runs[|s.runs|].url == url && t.runs[|s.runs|].run == run
      && OutcomeTells(c, s, t, url, t.runs[|s.runs|].outcome, doc, run)
      && ObjectsTell(s, t, url, doc, run) && ReportTells(report, t.rows[url], doc)
  {
    var p, t := PrintOf(doc), Checked(c, s, url, Body(doc, v), run);
    var before := if url in s.rows then EntriesAt(c, s.rows[url].stateKey, Stated(s, url, p).objects) else [];
    hide Inv, DocFits, NoCollisions, Checked, Check, EntriesAt, DiffOf, PrintOf, Stated, StateKeyFor, RowTells, ReportTells;
    hide OutcomeTells, ObjectsTell;
    CheckedIs(c, known, s, url, doc, v, run);
    ReportIs(c, known, s, url, doc, v, run);
    RowIsTold(s, url, doc, v);
    ObjectsAreTold(s, t, url, doc, v, run, DiffBlob(DiffOf(before, p.entries)));
    OutcomeIsTold(c, known, s, t, url, doc, v, run, t.runs[|s.runs|].outcome);
  }
}

/** When the recorded diffs of a resource still lead to its current URLs although its checks overlap. */
module ResourceOverlap {
  import opened Entries
  import opened Fingerprint
  import opened Codec
  import opened Diff
  import opened Resources
  import opened ResourceSafety
  import opened ResourceChecks
  import opened ResourceReplay
  import opened ResourceRace

  type KeySet = multiset<Key>

  /** A diff from `seen` to `next`, applied to `now`, gives `next`. */
  ghost predicate Carries(now: KeySet, seen: KeySet, next: KeySet) {
    forall k :: if k in next then now[k] == seen[k] else now[k] <= seen[k]
  }

  lemma CarriesExactly(now: KeySet, seen: KeySet, next: KeySet)
    ensures now - (seen - next) + (next - seen) == next <==> Carries(now, seen, next)
  {
    var got := now - (seen - next) + (next - seen);
    if Carries(now, seen, next) {
      assert forall k :: got[k] == next[k];
    }
    if got == next {
      forall k ensures if k in next then now[k] == seen[k] else now[k] <= seen[k] { assert got[k] == next[k]; }
    }
  }

  // ---------- what a check in flight is about to record ----------

  /** Writes that no history depends on. */
  predicate Plainly(w: Write) {
    w.Refresh? || w.Fail? || (w.Record? && !w.record.outcome.Baseline? && !w.record.outcome.Changed?)
  }

  function SeenKeys(c: Codec, f: Flight, objects: Objects): KeySet {
    if f.seen.Some? then KeysAt(c, f.seen.value.stateKey, objects) else multiset{}
  }

  function NextKeys(f: Flight): KeySet { if f.answer.Body? then Keys(PrintOf(f.answer.doc).entries) else multiset{} }

  predicate Leads(c: Codec, f: Flight, blob: Blob, objects: Objects) {
    && blob.DiffBlob?
    && Keys(blob.diff.removed) == SeenKeys(c, f, objects) - NextKeys(f)
    && Keys(blob.diff.added) == NextKeys(f) - SeenKeys(c, f, objects)
  }

  function DiffKeyOf(f: Flight): ObjectKey
    requires f.answer.Body?
  {
    DiffKey(f.url, f.run, PrintOf(f.answer.doc).urlset)
  }

  /** The row and then the run. */
  predicate Closes(ws: seq<Write>, f: Flight)
    requires f.answer.Body?
  {
    |ws| == 2 && ws[0] == Save(f.url, Coming(f)) && ws[1].Record? && ws[1].record.url == f.url
  }

  /** The diff is about to be written, or it is written, and leads from the row seen to the document. */
  predicate Told(c: Codec, f: Flight, objects: Objects)
    requires f.answer.Body? && f.rest != []
  {
    if f.seen.None? then Closes(f.rest, f) && f.rest[1].record.outcome == Baseline(Coming(f).stateKey)
    else if f.seen.value.urlset == PrintOf(f.answer.doc).urlset then
      Closes(f.rest, f) && f.rest[1].record.outcome.SemanticUnchanged?
    else if f.rest[0].Put? then
      && f.rest[0].key == DiffKeyOf(f) && DiffKeyOf(f) !in objects && Leads(c, f, f.rest[0].blob, objects)
      && Closes(f.rest[1..], f) && f.rest[2].record.outcome.Changed? && f.rest[2].record.outcome.diff == DiffKeyOf(f)
    else
      && DiffKeyOf(f) in objects && Leads(c, f, objects[DiffKeyOf(f)], objects)
      && Closes(f.rest, f) && f.rest[1].record.outcome.Changed? && f.rest[1].record.outcome.diff == DiffKeyOf(f)
  }

  ghost predicate Unused(url: Text, run: nat, objects: Objects) {
    forall key :: key in objects && key.DiffKey? && key.url == url ==> key.run != run
  }

  ghost predicate Tells(c: Codec, f: Flight, objects: Objects) {
    if !f.answer.Body? then f.planned && forall i :: 0 <= i < |f.rest| ==> Plainly(f.rest[i])
    else if !f.planned then Unused(f.url, f.run, objects)
    else f.rest == [] || Told(c, f, objects)
  }

  ghost predicate AllTell(c: Codec, flights: seq<Flight>, objects: Objects) {
    forall i :: 0 <= i < |flights| ==> Tells(c, flights[i], objects)
  }

  predicate Distinct(flights: seq<Flight>) {
    forall i, j :: 0 <= i < j < |flights| ==> (flights[i].url, flights[i].run) != (flights[j].url, flights[j].run)
  }

  predicate RowsStay(flights: seq<Flight>, rows: map<Text, ResourceRow>) {
    forall i :: 0 <= i < |flights| && flights[i].seen.Some? ==> flights[i].url in rows
  }

  ghost predicate Overlapping(c: Codec, known: set<Text>, w: World) {
    && WorldFits(c, known, w) && AllTell(c, w.flights, w.store.objects)
    && Distinct(w.flights) && RowsStay(w.flights, w.store.rows) && RunsFit(w.store.runs, w.store.objects)
  }

  /** New run ids, and no check stopped between its row and its run. */
  ghost predicate Orderly(c: Codec, known: set<Text>, w: World, e: Event) {
    match e
    case Begin(url, answer, run) =>
      && AnswerFits(c, known, answer) && Unused(url, run, w.store.objects)
      && forall i :: 0 <= i < |w.flights| ==> (w.flights[i].url, w.flights[i].run) != (url, run)
    case Proceed(i) => i < |w.flights| && w.flights[i].rest != [] ==> !w.flights[i].rest[0].Save?
    case Settle(i) => i < |w.flights| && w.flights[i].rest != [] && w.flights[i].rest[0].Save? && w.flights[i].planned
  }

  // ---------- puts keep the stories ----------

  lemma PutKeepsSeen(c: Codec, known: set<Text>, objects: Objects, key: ObjectKey, blob: Blob, f: Flight)
    requires ObjectsFit(c, known, objects) && NoCollisions(c, known) && ObjectFits(c, known, key, map[key := blob])
    requires FlightFits(c, known, f, objects)
    ensures SeenKeys(c, f, objects[key := blob]) == SeenKeys(c, f, objects)
  {
    if f.seen.Some? {
      assert RowFits(c, f.url, RowsSeen(f.url, f.seen)[f.url], objects);
      PutKeepsEntries(c, known, objects, key, blob, f.seen.value.stateKey);
    }
  }

  /** A state, or another flight's diff. */
  predicate Foreign(f: Flight, key: ObjectKey) { key.DiffKey? ==> (key.url, key.run) != (f.url, f.run) }

  lemma PutKeepsTold(c: Codec, objects: Objects, key: ObjectKey, blob: Blob, f: Flight)
    requires f.answer.Body? && f.rest != [] && Told(c, f, objects) && key != DiffKeyOf(f)
    requires SeenKeys(c, f, objects[key := blob]) == SeenKeys(c, f, objects)
    ensures Told(c, f, objects[key := blob])
  {
    hide SeenKeys, NextKeys, Coming, PrintOf, Keys, DiffKeyOf, Closes;
    assert forall b: Blob :: Leads(c, f, b, objects) ==> Leads(c, f, b, objects[key := blob]);
  }

  lemma PutKeepsTells(c: Codec, known: set<Text>, objects: Objects, key: ObjectKey, blob: Blob, f: Flight)
    requires ObjectsFit(c, known, objects) && NoCollisions(c, known) && ObjectFits(c, known, key, map[key := blob])
    requires FlightFits(c, known, f, objects) && Tells(c, f, objects) && Foreign(f, key)
    ensures Tells(c, f, objects[key := blob])
  {
    PutKeepsSeen(c, known, objects, key, blob, f);
    hide ObjectsFit, NoCollisions, ObjectFits, FlightFits, SeenKeys, NextKeys, Coming, PrintOf, Keys, Told;
    if f.answer.Body? && f.planned && f.rest != [] { PutKeepsTold(c, objects, key, blob, f); }
  }

  lemma PutKeepsRuns(runs: seq<RunRecord>, objects: Objects, key: ObjectKey, blob: Blob)
    requires RunsFit(runs, objects)
    ensures RunsFit(runs, objects[key := blob])
  {
    forall i | 0 <= i < |runs| ensures RunFits(runs[i], objects[key := blob]) { assert RunFits(runs[i], objects); }
  }

  // ---------- a flight's own steps ----------

  lemma StartedTells(c: Codec, s: Store, url: Text, answer: Answer, run: nat)
    requires Unused(url, run, s.objects)
    ensures Tells(c, Started(c, s, url, answer, run), s.objects)
  {
    hide LoadIndex, PrintOf, StatePut;
  }

  /** The plan of a flight, case by case. */
  lemma PlanIs(c: Codec, f: Flight, objects: Objects)
    requires f.answer.Body? && (f.seen.Some? ==> Readable(c, f.seen.value.stateKey, objects))
    ensures var rest, save, p := Planned(c, f, objects).rest, Save(f.url, Coming(f)), PrintOf(f.answer.doc);
      if f.seen.None? then rest == [save, Record(RunRecord(f.url, f.run, Baseline(Coming(f).stateKey)))]
      else if f.seen.value.urlset == p.urlset then
        rest == [save, Record(RunRecord(f.url, f.run, SemanticUnchanged(Coming(f).stateKey)))]
      else
        var d := DiffOf(EntriesAt(c, f.seen.value.stateKey, objects), p.entries);
        rest == [Put(DiffKeyOf(f), DiffBlob(d)), save,
                 Record(RunRecord(f.url, f.run, Changed(Coming(f).stateKey, DiffKeyOf(f), |d.added|, |d.removed|, |d.modified|)))]
  {
    hide PrintOf, DiffOf;
    assert StateKeyFor(View(f.url, f.seen, objects), f.url, PrintOf(f.answer.doc)) == Coming(f).stateKey;
  }

  lemma DiffTells(c: Codec, f: Flight, objects: Objects)
    requires f.answer.Body? && f.seen.Some?
    ensures Leads(c, f, DiffBlob(DiffOf(EntriesAt(c, f.seen.value.stateKey, objects), PrintOf(f.answer.doc).entries)), objects)
  {
    DiffIsMultisetDifference(EntriesAt(c, f.seen.value.stateKey, objects), PrintOf(f.answer.doc).entries);
  }

  lemma PlannedTells(c: Codec, known: set<Text>, f: Flight, objects: Objects)
    requires FlightFits(c, known, f, objects) && Tells(c, f, objects) && !f.planned && f.rest == []
    ensures Tells(c, Planned(c, f, objects), objects)
  {
    FlightOpens(c, known, f, objects);
    assert DiffKeyOf(f) !in objects;
    if f.seen.Some? { assert RowFits(c, f.url, RowsSeen(f.url, f.seen)[f.url], objects); }
    hide FlightFits, RowFits, Told, Unused, Planned;
    PlannedKeeps(c, f, objects);
    PlanTells(c, f, objects);
  }

  lemma PlannedKeeps(c: Codec, f: Flight, objects: Objects)
    requires f.answer.Body?
    ensures var g := Planned(c, f, objects);
      g.url == f.url && g.answer == f.answer && g.run == f.run && g.seen == f.seen && g.planned
  {
  }

  lemma PlanTells(c: Codec, f: Flight, objects: Objects)
    requires f.answer.Body? && DiffKeyOf(f) !in objects && (f.seen.Some? ==> Readable(c, f.seen.value.stateKey, objects))
    ensures var g := Planned(c, f, objects); g.rest != [] && Told(c, g, objects)
  {
    var g := Planned(c, f, objects);
    PlannedKeeps(c, f, objects);
    SamePlan(f, g);
    PlanIs(c, f, objects);
    hide PrintOf, DiffOf, Coming, Leads, EntriesAt, Planned, DiffKeyOf, Readable;
    if f.seen.Some? { DiffTells(c, g, objects); }
  }

  /** The write that a flight performs when it proceeds is quiet. */
  lemma NextIsQuiet(c: Codec, known: set<Text>, s: Store, f: Flight)
    requires FlightFits(c, known, f, s.objects) && Tells(c, f, s.objects) && f.rest != [] && !f.rest[0].Save?
    ensures Quiet(c, known, s, f.rest[0])
    ensures f.rest[0].Put? && f.rest[0].key.DiffKey? ==> f.rest[0].key == DiffKey(f.url, f.run, f.rest[0].key.urlset)
    ensures f.rest[0].Record? ==> !f.answer.Body?
  {
    assert Fits(c, known, s.objects, f.rest[0]);
    assert f.rest[0].Put? ==> Safe(c, known, s, f.rest[0]);
    if !f.answer.Body? { assert Plainly(f.rest[0]); }
    hide FlightFits, Fits, RowFits, ObjectFits, Keys, PrintOf, Coming, Leads;
    if f.answer.Body? && !f.planned { assert Opens(c, f, s.objects) by { FlightOpens(c, known, f, s.objects); } }
  }

  lemma FlightOpens(c: Codec, known: set<Text>, f: Flight, objects: Objects)
    requires FlightFits(c, known, f, objects) && !f.planned
    ensures Opens(c, f, objects)
  {
  }

  /** Once its diff is written, a flight tells the same. */
  lemma DiffPutTells(c: Codec, f: Flight, objects: Objects)
    requires f.answer.Body? && f.planned && f.rest != [] && f.rest[0].Put? && Told(c, f, objects)
    requires var after := objects[f.rest[0].key := f.rest[0].blob]; SeenKeys(c, f, after) == SeenKeys(c, f, objects)
    ensures Tells(c, f.(rest := f.rest[1..]), objects[f.rest[0].key := f.rest[0].blob])
  {
    hide SeenKeys, NextKeys, Coming, PrintOf, Keys, DiffKeyOf;
    var g, after := f.(rest := f.rest[1..]), objects[f.rest[0].key := f.rest[0].blob];
    assert DiffKeyOf(g) == DiffKeyOf(f) && Coming(g) == Coming(f) by { SamePlan(f, g); }
    assert SeenKeys(c, g, after) == SeenKeys(c, f, after) && NextKeys(g) == NextKeys(f) by { SameKeys(c, f, g, after); }
    assert Leads(c, g, f.rest[0].blob, after);
  }

  lemma SamePlan(f: Flight, g: Flight)
    requires f.answer.Body? && g.answer == f.answer && g.url == f.url && g.run == f.run && g.seen == f.seen
    ensures DiffKeyOf(g) == DiffKeyOf(f) && Coming(g) == Coming(f)
  {
  }

  lemma SameKeys(c: Codec, f: Flight, g: Flight, objects: Objects)
    requires g.answer == f.answer && g.seen == f.seen
    ensures SeenKeys(c, g, objects) == SeenKeys(c, f, objects) && NextKeys(g) == NextKeys(f)
  {
  }

  lemma AdvancedTells(c: Codec, known: set<Text>, s: Store, f: Flight)
    requires Inv(c, known, s) && NoCollisions(c, known) && FlightFits(c, known, f, s.objects) && Tells(c, f, s.objects)
    requires f.rest != [] && !f.rest[0].Save?
    ensures Tells(c, f.(rest := f.rest[1..]), Perform(s, f.rest[0]).objects)
  {
    var w, g := f.rest[0], f.(rest := f.rest[1..]);
    if !f.answer.Body? {
      assert Plainly(w);
      assert forall i :: 0 <= i < |g.rest| ==> g.rest[i] == f.rest[i + 1];
    } else if !f.planned {
      FlightOpens(c, known, f, s.objects);
    } else {
      assert Fits(c, known, s.objects, w);
      PutKeepsSeen(c, known, s.objects, w.key, w.blob, f);
      DiffPutTells(c, f, s.objects);
    }
  }

  // ---------- every orderly event keeps this ----------

  lemma OthersTell(c: Codec, known: set<Text>, w: World, i: nat)
    requires Overlapping(c, known, w) && NoCollisions(c, known) && i < |w.flights|
    requires w.flights[i].rest != [] && !w.flights[i].rest[0].Save?
    ensures forall j :: 0 <= j < |w.flights| && j != i ==>
              Tells(c, w.flights[j], Perform(w.store, w.flights[i].rest[0]).objects)
  {
    var f, write := w.flights[i], w.flights[i].rest[0];
    assert FlightFits(c, known, f, w.store.objects) && Tells(c, f, w.store.objects);
    assert Fits(c, known, w.store.objects, write);
    NextIsQuiet(c, known, w.store, f);
    if write.Put? {
      assert ObjectFits(c, known, write.key, map[write.key := write.blob]);
      forall j | 0 <= j < |w.flights| && j != i
        ensures Tells(c, w.flights[j], Perform(w.store, write).objects)
      {
        assert Tells(c, w.flights[j], w.store.objects) && FlightFits(c, known, w.flights[j], w.store.objects);
        hide Tells, FlightFits, Fits, ObjectFits, Quiet, NoCollisions, ObjectsFit;
        PutKeepsTells(c, known, w.store.objects, write.key, write.blob, w.flights[j]);
      }
    }
  }

  lemma ProceedTells(c: Codec, known: set<Text>, w: World, i: nat)
    requires Overlapping(c, known, w) && NoCollisions(c, known) && Orderly(c, known, w, Proceed(i)) && i < |w.flights|
    ensures var t := Proceeded(c, w, i); AllTell(c, t.flights, t.store.objects)
  {
    var f, t := w.flights[i], Proceeded(c, w, i);
    assert FlightFits(c, known, f, w.store.objects) && Tells(c, f, w.store.objects);
    assert forall j :: 0 <= j < |w.flights| ==> Tells(c, w.flights[j], w.store.objects);
    if f.rest != [] {
      OthersTell(c, known, w, i);
      AdvancedTells(c, known, w.store, f);
    } else if !f.planned {
      PlannedTells(c, known, f, w.store.objects);
    }
    hide Overlapping, FlightFits, Tells, NoCollisions, Perform, Planned;
  }

  lemma QuietKeepsRest(c: Codec, known: set<Text>, s: Store, w: Write)
    requires Quiet(c, known, s, w) && RunsFit(s.runs, s.objects)
    ensures var t := Perform(s, w); t.rows.Keys == s.rows.Keys && RunsFit(t.runs, t.objects)
  {
    hide Safe;
    if w.Put? { PutKeepsRuns(s.runs, s.objects, w.key, w.blob); }
  }

  lemma ProceedKeepsRest(c: Codec, known: set<Text>, w: World, i: nat)
    requires Overlapping(c, known, w) && Orderly(c, known, w, Proceed(i)) && i < |w.flights|
    ensures var t := Proceeded(c, w, i);
      Distinct(t.flights) && RowsStay(t.flights, t.store.rows) && RunsFit(t.store.runs, t.store.objects)
  {
    var f, t := w.flights[i], Proceeded(c, w, i);
    assert FlightFits(c, known, f, w.store.objects) && Tells(c, f, w.store.objects);
    hide WorldFits, FlightFits, Tells, Rest, Quiet, RunsFit, AllTell, Perform;
    if f.rest != [] {
      NextIsQuiet(c, known, w.store, f);
      QuietKeepsRest(c, known, w.store, f.rest[0]);
    }
    assert t.store.rows.Keys == w.store.rows.Keys && |t.flights| == |w.flights|;
    assert forall j :: 0 <= j < |w.flights| ==>
      (t.flights[j].url == w.flights[j].url && t.flights[j].run == w.flights[j].run && t.flights[j].seen == w.flights[j].seen);
  }

  lemma ProceedKeepsHistory(c: Codec, known: set<Text>, w: World, i: nat)
    requires Overlapping(c, known, w) && NoCollisions(c, known) && Orderly(c, known, w, Proceed(i)) && i < |w.flights|
    requires History(c, w.store)
    ensures History(c, Proceeded(c, w, i).store)
  {
    var f := w.flights[i];
    assert FlightFits(c, known, f, w.store.objects) && Tells(c, f, w.store.objects);
    if f.rest != [] {
      NextIsQuiet(c, known, w.store, f);
      hide FlightFits, Tells, Quiet, NoCollisions, History, Inv;
      QuietKeepsHistory(c, known, w.store, f.rest[0]);
    }
  }

  lemma ProceedKeepsOverlap(c: Codec, known: set<Text>, w: World, i: nat)
    requires Overlapping(c, known, w) && NoCollisions(c, known) && Orderly(c, known, w, Proceed(i)) && i < |w.flights|
    ensures Overlapping(c, known, Proceeded(c, w, i))
  {
    hide WorldFits, NoCollisions, Orderly, Proceeded, AllTell, Distinct, RowsStay, RunsFit;
    ProceedKeepsWorld(c, known, w, i);
    ProceedTells(c, known, w, i);
    ProceedKeepsRest(c, known, w, i);
  }

  /** What a flight settles: its row and its run. */
  lemma SettlesTwo(c: Codec, known: set<Text>, w: World, i: nat)
    requires Overlapping(c, known, w) && Orderly(c, known, w, Settle(i))
    ensures var f := w.flights[i]; f.answer.Body? && Told(c, f, w.store.objects) && Closes(f.rest, f) && f.rest == [f.rest[0], f.rest[1]]
    ensures FlightFits(c, known, w.flights[i], w.store.objects) && RowFits(c, w.flights[i].url, Coming(w.flights[i]), w.store.objects)
  {
    var f := w.flights[i];
    assert FlightFits(c, known, f, w.store.objects) && Tells(c, f, w.store.objects);
    assert Fits(c, known, w.store.objects, f.rest[0]);
    assert !f.answer.Body? ==> Plainly(f.rest[0]);
  }

  /** What the run that it records refers to is stored. */
  lemma RecordFits(c: Codec, known: set<Text>, w: World, i: nat)
    requires Overlapping(c, known, w) && Orderly(c, known, w, Settle(i))
    ensures var f := w.flights[i]; f.answer.Body? && Closes(f.rest, f) && RunFits(f.rest[1].record, w.store.objects)
  {
    SettlesTwo(c, known, w, i);
    var f := w.flights[i];
    assert Coming(f).stateKey.StateKey? && Coming(f).stateKey in w.store.objects;
    hide Overlapping, Orderly, FlightFits, RowFits, Leads, Coming, PrintOf;
  }

  lemma SettledIs(w: World, i: nat)
    requires i < |w.flights| && w.flights[i].answer.Body? && Closes(w.flights[i].rest, w.flights[i])
    ensures var f := w.flights[i];
      Settled(w, i) == World(w.store.(rows := w.store.rows[f.url := Coming(f)], runs := w.store.runs + [f.rest[1].record]),
                             w.flights[i := f.(rest := [])])
  {
    var f := w.flights[i];
    assert f.rest == [f.rest[0], f.rest[1]];
    hide Coming;
    PairPerforms(w.store, f.rest[0], f.rest[1]);
  }

  lemma SettleKeepsOverlap(c: Codec, known: set<Text>, w: World, i: nat)
    requires Overlapping(c, known, w) && NoCollisions(c, known) && Orderly(c, known, w, Settle(i))
    ensures Overlapping(c, known, Settled(w, i))
  {
    var f, t := w.flights[i], Settled(w, i);
    SettleKeepsWorld(c, known, w, i);
    RecordFits(c, known, w, i);
    SettledIs(w, i);
    hide WorldFits, NoCollisions, Settled, Closes, Told, Coming, RunFits;
    forall j | 0 <= j < |t.flights| ensures Tells(c, t.flights[j], t.store.objects) {
      assert Tells(c, w.flights[j], w.store.objects);
    }
    assert RunsFit(t.store.runs, t.store.objects);
  }

  lemma EventKeepsOverlap(c: Codec, known: set<Text>, w: World, e: Event)
    requires Overlapping(c, known, w) && NoCollisions(c, known) && Orderly(c, known, w, e)
    ensures Overlapping(c, known, Happens(c, w, e))
  {
    match e
    case Begin(url, answer, run) =>
      StartedTells(c, w.store, url, answer, run);
      EventKeepsWorld(c, known, w, e);
      hide WorldFits, NoCollisions, Tells, RunsFit;
    case Proceed(i) => if i < |w.flights| { ProceedKeepsOverlap(c, known, w, i); }
    case Settle(i) => SettleKeepsOverlap(c, known, w, i);
  }

  // ---------- when a settled check keeps the history ----------

  /** The row that is overwritten lists, of the URLs of the document, those the check saw, and no others that it did not. */
  ghost predicate SettlesRight(c: Codec, w: World, e: Event) {
    e.Settle? && e.flight < |w.flights| ==>
      var f := w.flights[e.flight];
      f.seen.None? || (f.url in w.store.rows &&
        Carries(KeysAt(c, w.store.rows[f.url].stateKey, w.store.objects), SeenKeys(c, f, w.store.objects), NextKeys(f)))
  }

  /** A saved row and its run keep the history exactly if replaying the run leads to the row. */
  lemma PairKeepsExactly(c: Codec, s: Store, url: Text, row: ResourceRow, record: RunRecord)
    requires History(c, s) && record.url == url && RunFits(record, s.objects)
    ensures History(c, PerformAll(s, [Save(url, row), Record(record)])) <==>
      Replayed(c, s.objects, s.runs + [record], url) == KeysAt(c, row.stateKey, s.objects)
  {
    var t := PerformAll(s, [Save(url, row), Record(record)]);
    PairPerforms(s, Save(url, row), Record(record));
    assert url in t.rows && t.rows[url] == row && t.runs == s.runs + [record] && t.objects == s.objects;
    hide Replayed, KeysAt;
    if Replayed(c, s.objects, s.runs + [record], url) == KeysAt(c, row.stateKey, s.objects) {
      SaveAndRecordKeepHistory(c, s, url, row, record);
    }
  }

  /** A readable row's keys are those of any document with its fingerprint. */
  lemma SameUrlsetSameKeys(c: Codec, known: set<Text>, url: Text, row: ResourceRow, objects: Objects, doc: Document)
    requires ObjectsFit(c, known, objects) && NoCollisions(c, known) && DocFits(c, known, doc)
    requires RowFits(c, url, row, objects) && row.urlset == PrintOf(doc).urlset
    ensures KeysAt(c, row.stateKey, objects) == Keys(PrintOf(doc).entries)
  {
    PrintReads(c, known, doc);
    assert ObjectFits(c, known, row.stateKey, objects);
    PrintDecides(c, known, EntriesAt(c, row.stateKey, objects), PrintOf(doc).entries);
  }

  lemma ComingKeys(c: Codec, known: set<Text>, w: World, i: nat)
    requires Overlapping(c, known, w) && NoCollisions(c, known) && Orderly(c, known, w, Settle(i))
    ensures var f, objects := w.flights[i], w.store.objects;
      && f.answer.Body? && KeysAt(c, Coming(f).stateKey, objects) == NextKeys(f)
      && (f.seen.Some? && f.seen.value.urlset == PrintOf(f.answer.doc).urlset ==> SeenKeys(c, f, objects) == NextKeys(f))
  {
    var f, objects := w.flights[i], w.store.objects;
    SettlesTwo(c, known, w, i);
    hide Told, RowFits, EntriesAt, Keys;
    SameUrlsetSameKeys(c, known, f.url, Coming(f), objects, f.answer.doc);
    if f.seen.Some? && f.seen.value.urlset == PrintOf(f.answer.doc).urlset {
      assert RowFits(c, f.url, RowsSeen(f.url, f.seen)[f.url], objects);
      SameUrlsetSameKeys(c, known, f.url, f.seen.value, objects, f.answer.doc);
    }
  }

  /** What the history leads to once the check has recorded its run. */
  lemma RecordLeads(c: Codec, known: set<Text>, w: World, i: nat)
    requires Overlapping(c, known, w) && NoCollisions(c, known) && Orderly(c, known, w, Settle(i)) && History(c, w.store)
    ensures var f, s := w.flights[i], w.store;
      && f.answer.Body? && Closes(f.rest, f)
      && Replayed(c, s.objects, s.runs + [f.rest[1].record], f.url) ==
         if f.seen.None? then NextKeys(f)
         else Replayed(c, s.objects, s.runs, f.url) - (SeenKeys(c, f, s.objects) - NextKeys(f))
                                                   + (NextKeys(f) - SeenKeys(c, f, s.objects))
  {
    var f, s := w.flights[i], w.store;
    SettlesTwo(c, known, w, i);
    ComingKeys(c, known, w, i);
    hide FlightFits, RowFits, Overlapping, History, Replayed, KeysAt, SeenKeys, NextKeys, Coming, Keys, NoCollisions;
    ReplayedAppend(c, s.objects, s.runs, f.rest[1].record, f.url);
  }

  /** With what was seen in place, or nothing seen, the history goes on; and only then. */
  lemma SettleKeepsHistoryExactly(c: Codec, known: set<Text>, w: World, i: nat)
    requires Overlapping(c, known, w) && NoCollisions(c, known) && Orderly(c, known, w, Settle(i)) && History(c, w.store)
    ensures History(c, Settled(w, i).store) <==> SettlesRight(c, w, Settle(i))
  {
    var f, s := w.flights[i], w.store;
    SettlesTwo(c, known, w, i);
    assert f.seen.Some? ==> f.url in s.rows;
    hide FlightFits, RowFits, Overlapping, Orderly, Replayed, KeysAt, SeenKeys, NextKeys, Coming, Keys, NoCollisions, Carries, Told, RunFits, History;
    ComingKeys(c, known, w, i);
    RecordFits(c, known, w, i);
    RecordLeads(c, known, w, i);
    PairKeepsExactly(c, s, f.url, Coming(f), f.rest[1].record);
    HistoryAt(c, s, f.url);
    if f.seen.Some? {
      CarriesExactly(KeysAt(c, s.rows[f.url].stateKey, s.objects), SeenKeys(c, f, s.objects), NextKeys(f));
    }
  }

  lemma HistoryAt(c: Codec, s: Store, url: Text)
    requires History(c, s)
    ensures url in s.rows ==> Replayed(c, s.objects, s.runs, url) == KeysAt(c, s.rows[url].stateKey, s.objects)
  {
  }

  // ---------- over whole runs ----------

  ghost predicate OrderlyRun(c: Codec, known: set<Text>, w: World, events: seq<Event>)
    decreases |events|
  {
    events == [] || (Orderly(c, known, w, events[0]) && OrderlyRun(c, known, Happens(c, w, events[0]), events[1..]))
  }

  /** After every event the recorded diffs lead to the current URLs. */
  ghost predicate HistoryHolds(c: Codec, w: World, events: seq<Event>)
    decreases |events|
  {
    History(c, w.store) && (events == [] || HistoryHolds(c, Happens(c, w, events[0]), events[1..]))
  }

  /** Every check that settles replaces what it saw. */
  ghost predicate AllSettleRight(c: Codec, w: World, events: seq<Event>)
    decreases |events|
  {
    events == [] || (SettlesRight(c, w, events[0]) && AllSettleRight(c, Happens(c, w, events[0]), events[1..]))
  }

  lemma EventKeepsHistoryExactly(c: Codec, known: set<Text>, w: World, e: Event)
    requires Overlapping(c, known, w) && NoCollisions(c, known) && Orderly(c, known, w, e) && History(c, w.store)
    ensures History(c, Happens(c, w, e).store) <==> SettlesRight(c, w, e)
  {
    match e
    case Begin(_, _, _) =>
    case Proceed(i) => if i < |w.flights| { ProceedKeepsHistory(c, known, w, i); }
    case Settle(i) => SettleKeepsHistoryExactly(c, known, w, i);
  }

  /**
   However checks overlap: the history leads to the current URLs at every moment exactly if every
   check that settles finds, of the keys that matter to its diff, what it saw at its start.
   */
  lemma {:induction false} HistoryHoldsExactly(c: Codec, known: set<Text>, w: World, events: seq<Event>)
    requires Overlapping(c, known, w) && NoCollisions(c, known) && History(c, w.store) && OrderlyRun(c, known, w, events)
    ensures HistoryHolds(c, w, events) <==> AllSettleRight(c, w, events)
    decreases |events|
  {
    if events != [] {
      hide Overlapping, NoCollisions, History, Happens, Orderly, SettlesRight;
      EventKeepsOverlap(c, known, w, events[0]);
      EventKeepsHistoryExactly(c, known, w, events[0]);
      if SettlesRight(c, w, events[0]) {
        HistoryHoldsExactly(c, known, Happens(c, w, events[0]), events[1..]);
      } else {
        HistoryStartsHere(c, Happens(c, w, events[0]), events[1..]);
      }
    }
  }

  lemma HistoryStartsHere(c: Codec, w: World, events: seq<Event>)
    ensures HistoryHolds(c, w, events) ==> History(c, w.store)
  {
  }

  /** So it is for every run that starts without any rows. */
  lemma HistoryFromTheStart(c: Codec, known: set<Text>, events: seq<Event>)
    requires NoCollisions(c, known) && OrderlyRun(c, known, NEW, events)
    ensures HistoryHolds(c, NEW, events) <==> AllSettleRight(c, NEW, events)
  {
    HistoryHoldsExactly(c, known, NEW, events);
  }
}

/**
 The write protocol of SitemapMonitor.check_resource for one site: which objects and rows a
 fetched answer makes it write, in order.  A crash keeps a prefix of the writes.
 */
module Resources {
  import opened Prelude
  import opened Entries
  import opened Fingerprint
  import opened Codec
  import opened Diff

  // An object key spells out the resource and, for a diff, the run that wrote it.
  datatype ObjectKey = StateKey(url: Text, metadata: Text) | DiffKey(url: Text, run: nat, urlset: Text)

  datatype Blob = StateBlob(rows: seq<Row>) | DiffBlob(diff: DiffResult)

  datatype Validators = Validators(etag: Option<Text>, lastModified: Option<Text>)

  /** A row with a current state key; rows of resources never fetched are invisible to get_resource. */
  datatype ResourceRow = ResourceRow(
    stateKey: ObjectKey, kind: Kind, urlCount: nat, urlset: Text, metadata: Text, content: Text, validators: Validators)

  datatype Failure = FetchError | Unexpected304 | HttpStatus(code: nat) | ParseError | PreviousStateMissing | PreviousStateInvalid

  datatype Outcome =
    | Baseline(state: ObjectKey)
    | Changed(state: ObjectKey, diff: ObjectKey, added: nat, removed: nat, modified: nat)
    | SemanticUnchanged(state: ObjectKey)
    | NotModified(state: ObjectKey)
    | Failed(failure: Failure)

  datatype RunRecord = RunRecord(url: Text, run: nat, outcome: Outcome)

  datatype Store = Store(objects: map<ObjectKey, Blob>, rows: map<Text, ResourceRow>, runs: seq<RunRecord>)

  datatype Answer =
    | NoAnswer
    | Unchanged(validators: Validators)         // 304
    | Status(code: nat)
    | Garbage                                   // 200, but not a sitemap
    | Body(doc: Document, validators: Validators)

  datatype Write =
    | Put(key: ObjectKey, blob: Blob)
    | Save(url: Text, row: ResourceRow)
    | Refresh(url: Text, validators: Validators)
    | Fail(url: Text)
    | Record(record: RunRecord)

  function Refreshed(row: ResourceRow, v: Validators): ResourceRow {
    row.(validators := Validators(if v.etag.Some? then v.etag else row.validators.etag,
                                  if v.lastModified.Some? then v.lastModified else row.validators.lastModified))
  }

  function Perform(s: Store, w: Write): Store {
    match w
    case Put(key, blob) => s.(objects := s.objects[key := blob])
    case Save(url, row) => s.(rows := s.rows[url := row])
    case Refresh(url, v) => if url in s.rows then s.(rows := s.rows[url := Refreshed(s.rows[url], v)]) else s
    case Fail(_) => s
    case Record(record) => s.(runs := s.runs + [record])
  }

  function PerformAll(s: Store, ws: seq<Write>): Store
    decreases |ws|
  {
    if ws == [] then s else PerformAll(Perform(s, ws[0]), ws[1..])
  }

  /** What the walk and the scan snapshot learn from a check. */
  datatype Report = Report(failed: bool, kind: Kind, state: Option<ObjectKey>, urlCount: nat, links: seq<Text>)

  const NO_REPORT := Report(true, UrlSet, None, 0, [])

  datatype Plan = Plan(writes: seq<Write>, report: Report)

  function Urls(es: seq<Entry>): seq<Text> { seq(|es|, i requires 0 <= i < |es| => es[i].url) }

  function Failing(url: Text, run: nat, failure: Failure): Plan {
    Plan([Fail(url), Record(RunRecord(url, run, Failed(failure)))], NO_REPORT)
  }

  function LoadIndex(c: Codec, s: Store, row: ResourceRow): seq<Text> {
    if row.kind.Index? && row.stateKey in s.objects && s.objects[row.stateKey].StateBlob? &&
       Decode(c, s.objects[row.stateKey].rows).Ok?
    then Urls(Decode(c, s.objects[row.stateKey].rows).entries) else []
  }

  function RowFor(key: ObjectKey, p: Print, v: Validators): ResourceRow {
    ResourceRow(key, p.kind, |p.entries|, p.urlset, p.metadata, p.content, v)
  }

  function ReportFor(key: ObjectKey, p: Print): Report {
    Report(false, p.kind, Some(key), |p.entries|, if p.kind.Index? then Urls(p.entries) else [])
  }

  /** The state object is written unless both fingerprints are the stored ones. */
  predicate WritesState(s: Store, url: Text, p: Print) {
    url !in s.rows || s.rows[url].urlset != p.urlset || s.rows[url].metadata != p.metadata
  }

  function StateKeyFor(s: Store, url: Text, p: Print): ObjectKey {
    if WritesState(s, url, p) then StateKey(url, p.metadata) else s.rows[url].stateKey
  }

  function StatePut(s: Store, url: Text, p: Print): seq<Write> {
    if WritesState(s, url, p) then [Put(StateKey(url, p.metadata), StateBlob(EncodeState(p.entries)))] else []
  }

  /** What follows the state object: the row was read from `s`, the previous state is read from `stored`. */
  function Rest(c: Codec, s: Store, url: Text, p: Print, v: Validators, run: nat, stored: map<ObjectKey, Blob>): Plan {
    var key := StateKeyFor(s, url, p);
    var save := Save(url, RowFor(key, p, v));
    if url !in s.rows then
      Plan([save, Record(RunRecord(url, run, Baseline(key)))], ReportFor(key, p))
    else if s.rows[url].urlset == p.urlset then
      Plan([save, Record(RunRecord(url, run, SemanticUnchanged(key)))], ReportFor(key, p))
    else
      var before := s.rows[url].stateKey;
      if before !in stored then Failing(url, run, PreviousStateMissing)
      else if !stored[before].StateBlob? || Decode(c, stored[before].rows).Err? then Failing(url, run, PreviousStateInvalid)
      else
        var d := DiffOf(Decode(c, stored[before].rows).entries, p.entries);
        var diff := DiffKey(url, run, p.urlset);
        Plan([Put(diff, DiffBlob(d)), save,
              Record(RunRecord(url, run, Changed(key, diff, |d.added|, |d.removed|, |d.modified|)))],
             ReportFor(key, p))
  }

  /** _apply_fingerprint; the previous state is read after the new one was written. */
  function ApplyPrint(c: Codec, s: Store, url: Text, p: Print, v: Validators, run: nat): Plan {
    var put := StatePut(s, url, p);
    var rest := Rest(c, s, url, p, v, run, PerformAll(s, put).objects);
    Plan(put + rest.writes, rest.report)
  }

  function Check(c: Codec, s: Store, url: Text, answer: Answer, run: nat): Plan {
    match answer
    case NoAnswer => Failing(url, run, FetchError)
    case Unchanged(v) =>
      if url !in s.rows then Failing(url, run, Unexpected304)
      else
        var row := s.rows[url];
        Plan([Refresh(url, v), Record(RunRecord(url, run, NotModified(row.stateKey)))],
             Report(false, row.kind, Some(row.stateKey), row.urlCount, LoadIndex(c, s, row)))
    case Status(code) => Failing(url, run, HttpStatus(code))
    case Garbage => Failing(url, run, ParseError)
    case Body(doc, v) => ApplyPrint(c, s, url, PrintOf(doc), v, run)
  }
}

/** Between any two writes of a check, every resource's current state exists and matches its fingerprints. */
module ResourceSafety {
  import opened Entries
  import opened Fingerprint
  import opened Codec
  import opened Resources

  type Objects = map<ObjectKey, Blob>

  /** Entries a parser hands over: hashed by their URL, as a parser yields them, known URLs. */
  ghost predicate Good(c: Codec, known: set<Text>, es: seq<Entry>) {
    AllPlain(es) && (forall i :: 0 <= i < |es| ==> es[i].hash == c.hashOf(es[i].url) && es[i].url in known)
  }

  /** No two known URLs share a hash. */
  ghost predicate NoCollisions(c: Codec, known: set<Text>) {
    forall a, b :: a in known && b in known && c.hashOf(a) == c.hashOf(b) ==> a == b
  }

  /** A document within the limits that a stored state must meet to be read back. */
  ghost predicate DocFits(c: Codec, known: set<Text>, doc: Document) {
    && Good(c, known, doc.entries)
    && c.size(EncodeState(Sort(doc.entries))) <= c.maxBytes && |doc.entries| <= c.maxEntries
  }

  ghost predicate AnswerFits(c: Codec, known: set<Text>, answer: Answer) {
    answer.Body? ==> DocFits(c, known, answer.doc)
  }

  predicate Readable(c: Codec, key: ObjectKey, objects: Objects) {
    key in objects && objects[key].StateBlob? && Decode(c, objects[key].rows).Ok?
  }

  function EntriesAt(c: Codec, key: ObjectKey, objects: Objects): seq<Entry> {
    if Readable(c, key, objects) then Decode(c, objects[key].rows).entries else []
  }

  /** A state object reads back as entries with the metadata fingerprint in its key. */
  ghost predicate ObjectFits(c: Codec, known: set<Text>, key: ObjectKey, objects: Objects) {
    if key.StateKey? then
      Readable(c, key, objects) && Good(c, known, EntriesAt(c, key, objects)) &&
      MetadataPayload(EntriesAt(c, key, objects)) == key.metadata
    else key in objects && objects[key].DiffBlob?
  }

  ghost predicate ObjectsFit(c: Codec, known: set<Text>, objects: Objects) {
    forall key :: key in objects ==> ObjectFits(c, known, key, objects)
  }

  /** The current state key exists and reads back as entries with the row's fingerprints. */
  ghost predicate RowFits(c: Codec, url: Text, row: ResourceRow, objects: Objects) {
    && row.stateKey == StateKey(url, row.metadata) && Readable(c, row.stateKey, objects)
    && MetadataPayload(EntriesAt(c, row.stateKey, objects)) == row.metadata
    && UrlsetPayload(EntriesAt(c, row.stateKey, objects)) == row.urlset
    && |EntriesAt(c, row.stateKey, objects)| == row.urlCount
  }

  ghost predicate RowsFit(c: Codec, rows: map<Text, ResourceRow>, objects: Objects) {
    forall url :: url in rows ==> RowFits(c, url, rows[url], objects)
  }

  ghost predicate Inv(c: Codec, known: set<Text>, s: Store) {
    ObjectsFit(c, known, s.objects) && RowsFit(c, s.rows, s.objects)
  }

  // ---------- fingerprints of good entries ----------

  lemma SortKeepsGood(c: Codec, known: set<Text>, es: seq<Entry>)
    requires Good(c, known, es)
    ensures Good(c, known, Sort(es))
  {
    forall i | 0 <= i < |Sort(es)|
      ensures Plain(Sort(es)[i]) && Sort(es)[i].hash == c.hashOf(Sort(es)[i].url) && Sort(es)[i].url in known
    {
      SortKeepsMembers(es, Sort(es)[i]);
      var j :| 0 <= j < |es| && es[j] == Sort(es)[i];
    }
  }

  /** Equal hash sequences mean equal URL sequences, and so equal keys. */
  lemma {:induction false} SameHashesSameKeys(c: Codec, known: set<Text>, a: seq<Entry>, b: seq<Entry>)
    requires Good(c, known, a) && Good(c, known, b) && NoCollisions(c, known) && SameHashes(a, b)
    ensures Keys(a) == Keys(b) && Urls(a) == Urls(b)
  {
    if a != [] {
      assert a[0].hash == b[0].hash && c.hashOf(a[0].url) == c.hashOf(b[0].url);
      assert forall i :: 0 <= i < |a[1..]| ==> a[1..][i] == a[i + 1];
      assert forall i :: 0 <= i < |b[1..]| ==> b[1..][i] == b[i + 1];
      SameHashesSameKeys(c, known, a[1..], b[1..]);
      assert Urls(a) == [a[0].url] + Urls(a[1..]) && Urls(b) == [b[0].url] + Urls(b[1..]);
    }
  }

  lemma PrintDecides(c: Codec, known: set<Text>, a: seq<Entry>, b: seq<Entry>)
    requires Good(c, known, a) && Good(c, known, b) && NoCollisions(c, known)
    requires UrlsetPayload(a) == UrlsetPayload(b) || MetadataPayload(a) == MetadataPayload(b)
    ensures Keys(a) == Keys(b) && Urls(a) == Urls(b) && UrlsetPayload(a) == UrlsetPayload(b) && |a| == |b|
  {
    if MetadataPayload(a) == MetadataPayload(b) { MetadataDecidesUrlset(a, b); }
    assert forall i :: 0 <= i < |a| ==> Plain(a[i]);
    assert forall i :: 0 <= i < |b| ==> Plain(b[i]);
    UrlsetPayloadTells(a, b);
    SameHashesSameKeys(c, known, a, b);
  }

  // ---------- single writes ----------

  /** What a write must bring to keep the invariant. */
  ghost predicate Safe(c: Codec, known: set<Text>, s: Store, w: Write) {
    match w
    case Put(key, blob) => ObjectFits(c, known, key, map[key := blob])
    case Save(url, row) => RowFits(c, url, row, s.objects)
    case _ => true
  }

  lemma PutKeepsObjects(c: Codec, known: set<Text>, objects: Objects, key: ObjectKey, blob: Blob)
    requires ObjectsFit(c, known, objects) && ObjectFits(c, known, key, map[key := blob])
    ensures ObjectsFit(c, known, objects[key := blob])
  {
    var after := objects[key := blob];
    forall k | k in after ensures ObjectFits(c, known, k, after) {
      assert k != key ==> ObjectFits(c, known, k, objects);
    }
  }

  /** Writing an object again does not change what its key stands for. */
  lemma PutKeepsEntries(c: Codec, known: set<Text>, objects: Objects, key: ObjectKey, blob: Blob, k: ObjectKey)
    requires ObjectsFit(c, known, objects) && ObjectFits(c, known, key, map[key := blob]) && NoCollisions(c, known)
    requires k in objects && k.StateKey?
    ensures var after := objects[key := blob];
      var a, b := EntriesAt(c, k, objects), EntriesAt(c, k, after);
      && Readable(c, k, after) && Keys(a) == Keys(b) && Urls(a) == Urls(b) && |a| == |b|
      && UrlsetPayload(a) == UrlsetPayload(b) && MetadataPayload(a) == MetadataPayload(b)
  {
    var after := objects[key := blob];
    assert ObjectFits(c, known, k, objects);
    if k == key {
      assert EntriesAt(c, k, after) == EntriesAt(c, key, map[key := blob]);
      PrintDecides(c, known, EntriesAt(c, k, objects), EntriesAt(c, k, after));
    } else {
      assert EntriesAt(c, k, after) == EntriesAt(c, k, objects);
    }
  }

  lemma PutKeepsRows(c: Codec, known: set<Text>, rows: map<Text, ResourceRow>, objects: Objects, key: ObjectKey, blob: Blob)
    requires ObjectsFit(c, known, objects) && RowsFit(c, rows, objects) && NoCollisions(c, known)
    requires ObjectFits(c, known, key, map[key := blob])
    ensures RowsFit(c, rows, objects[key := blob])
  {
    forall url | url in rows ensures RowFits(c, url, rows[url], objects[key := blob]) {
      assert RowFits(c, url, rows[url], objects);
      PutKeepsEntries(c, known, objects, key, blob, rows[url].stateKey);
    }
  }

  lemma PerformKeepsInv(c: Codec, known: set<Text>, s: Store, w: Write)
    requires Inv(c, known, s) && Safe(c, known, s, w) && NoCollisions(c, known)
    ensures Inv(c, known, Perform(s, w))
  {
    match w
    case Put(key, blob) =>
      PutKeepsObjects(c, known, s.objects, key, blob);
      PutKeepsRows(c, known, s.rows, s.objects, key, blob);
    case Save(url, row) =>
    case Refresh(url, v) =>
      assert url in s.rows ==> RowFits(c, url, s.rows[url], s.objects);
    case _ =>
  }

  ghost predicate SafeAll(c: Codec, known: set<Text>, s: Store, ws: seq<Write>)
    decreases |ws|
  {
    ws == [] || (Safe(c, known, s, ws[0]) && SafeAll(c, known, Perform(s, ws[0]), ws[1..]))
  }

  /** Wherever a crash cuts a sequence of safe writes, the invariant holds. */
  lemma {:induction false} PrefixKeepsInv(c: Codec, known: set<Text>, s: Store, ws: seq<Write>, cut: nat)
    requires Inv(c, known, s) && SafeAll(c, known, s, ws) && NoCollisions(c, known) && cut <= |ws|
    ensures Inv(c, known, PerformAll(s, ws[..cut]))
    decreases |ws|
  {
    if cut > 0 {
      assert ws[..cut][1..] == ws[1..][..cut - 1];
      PerformKeepsInv(c, known, s, ws[0]);
      PrefixKeepsInv(c, known, Perform(s, ws[0]), ws[1..], cut - 1);
    }
  }
}

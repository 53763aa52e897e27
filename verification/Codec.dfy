/** sitemap_monitor/codec.py: stored states, with gzip and JSON as the identity on rows. */
module Codec {
  import opened Prelude
  import opened Entries

  datatype Row = Row(h: Text, lm: Option<Text>, r: Text, u: Text)

  /** The URL hash, the bytes a list of rows takes, and the limits of decode_state. */
  datatype Codec = Codec(hashOf: Text -> Text, size: seq<Row> -> nat, maxBytes: nat, maxEntries: nat)

  datatype Malformed = TooLarge | TooMany | WrongHash

  datatype Decoded = Ok(entries: seq<Entry>) | Err(error: Malformed)

  function RowOf(e: Entry): Row { Row(e.hash, e.lastmod, e.rawUrl, e.url) }

  function EntryOf(row: Row): Entry { Entry(row.u, row.r, row.h, row.lm) }

  function RowsOf(es: seq<Entry>): seq<Row> { seq(|es|, i requires 0 <= i < |es| => RowOf(es[i])) }

  function EntriesOf(rows: seq<Row>): seq<Entry> { seq(|rows|, i requires 0 <= i < |rows| => EntryOf(rows[i])) }

  function EncodeState(es: seq<Entry>): seq<Row> { RowsOf(Sort(es)) }

  ghost predicate Hashed(es: seq<Entry>, hashOf: Text -> Text) {
    forall e :: e in es ==> e.hash == hashOf(e.url)
  }

  predicate RowHashed(row: Row, hashOf: Text -> Text) { row.h == hashOf(row.u) }

  function Decode(c: Codec, rows: seq<Row>): Decoded {
    if c.size(rows) > c.maxBytes then Err(TooLarge)
    else if |rows| > c.maxEntries then Err(TooMany)
    else if exists i :: 0 <= i < |rows| && !RowHashed(rows[i], c.hashOf) then Err(WrongHash)
    else Ok(Sort(EntriesOf(rows)))
  }

  method DecodeState(c: Codec, rows: seq<Row>) returns (d: Decoded)
    ensures d == Decode(c, rows)
  {
    if c.size(rows) > c.maxBytes { return Err(TooLarge); }
    if |rows| > c.maxEntries { return Err(TooMany); }
    var entries: seq<Entry> := [];
    for i := 0 to |rows|
      invariant entries == EntriesOf(rows[..i])
      invariant forall k :: 0 <= k < i ==> RowHashed(rows[k], c.hashOf)
    {
      var expected := c.hashOf(rows[i].u);
      if rows[i].h != expected {
        assert !RowHashed(rows[i], c.hashOf);
        return Err(WrongHash);
      }
      entries := entries + [Entry(rows[i].u, rows[i].r, expected, rows[i].lm)];
    }
    assert rows[..|rows|] == rows;
    return Ok(Sort(entries));
  }

  lemma EntriesOfRows(es: seq<Entry>)
    ensures EntriesOf(RowsOf(es)) == es
  {
  }

  /** A stored state reads back as the sorted entries exactly when it fits the limits and every
      entry carries the hash of its URL. */
  lemma StateRoundTrip(c: Codec, es: seq<Entry>)
    ensures Decode(c, EncodeState(es)) == Ok(Sort(es)) <==>
      c.size(EncodeState(es)) <= c.maxBytes && |es| <= c.maxEntries && Hashed(es, c.hashOf)
  {
    var sorted := Sort(es);
    SortKeepsLength(es);
    EntriesOfRows(sorted);
    assert Sort(sorted) == sorted by {
      SortIsStable(es);
      SortOfSorted(sorted);
    }
    hide Sort, EntriesOf;
    if Hashed(es, c.hashOf) {
      forall i | 0 <= i < |sorted| ensures RowHashed(RowsOf(sorted)[i], c.hashOf) { SortKeepsMembers(es, sorted[i]); }
    } else {
      var e :| e in es && e.hash != c.hashOf(e.url);
      SortKeepsMembers(es, e);
      var i :| 0 <= i < |sorted| && sorted[i] == e;
      assert !RowHashed(RowsOf(sorted)[i], c.hashOf);
    }
  }

  /** A stored state is refused for its size, then for its length, then for the first row without the hash of its URL. */
  lemma RefusalsTell(c: Codec, rows: seq<Row>)
    ensures Decode(c, rows) == Err(TooLarge) <==> c.size(rows) > c.maxBytes
    ensures Decode(c, rows) == Err(TooMany) <==> c.size(rows) <= c.maxBytes && |rows| > c.maxEntries
    ensures Decode(c, rows) == Err(WrongHash) <==>
      c.size(rows) <= c.maxBytes && |rows| <= c.maxEntries && exists i :: 0 <= i < |rows| && rows[i].h != c.hashOf(rows[i].u)
    ensures Decode(c, rows).Ok? ==>
      && |Decode(c, rows).entries| == |rows| && Sorted(Decode(c, rows).entries)
      && forall e :: e in Decode(c, rows).entries <==>
           exists i :: 0 <= i < |rows| && e.url == rows[i].u && e.rawUrl == rows[i].r && e.hash == rows[i].h && e.lastmod == rows[i].lm
  {
    assert forall i :: 0 <= i < |rows| ==> RowHashed(rows[i], c.hashOf) == (rows[i].h == c.hashOf(rows[i].u));
    var entries := EntriesOf(rows);
    SortIsStable(entries);
    SortKeepsLength(entries);
    hide Sort, Sorted;
    forall e ensures e in Sort(entries) <==>
        exists i :: 0 <= i < |rows| && e.url == rows[i].u && e.rawUrl == rows[i].r && e.hash == rows[i].h && e.lastmod == rows[i].lm
    {
      SortKeepsMembers(entries, e);
      forall i | 0 <= i < |rows| && e.url == rows[i].u && e.rawUrl == rows[i].r && e.hash == rows[i].h && e.lastmod == rows[i].lm
        ensures e in entries
      {
        assert entries[i] == e;
      }
      if e in entries {
        var i :| 0 <= i < |entries| && entries[i] == e;
        assert e == EntryOf(rows[i]);
      }
    }
  }
}

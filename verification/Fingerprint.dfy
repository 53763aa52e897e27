/** sitemap_monitor/fingerprint.py: what two documents with equal fingerprints share. */
module Fingerprint {
  import opened Entries

  datatype Kind = UrlSet | Index | PlainText

  datatype Document = Document(entries: seq<Entry>, kind: Kind, content: Text)

  /** A digest is kept as the payload it hashes. */
  datatype Print = Print(entries: seq<Entry>, kind: Kind, content: Text, urlset: Text, metadata: Text)

  const NUL: Byte := 0
  const NEWLINE: Byte := 10
  const HASH_BYTES := 32

  function ModText(e: Entry): Text { if e.lastmod.Some? then e.lastmod.value else [] }

  function UrlsetPayload(es: seq<Entry>): Text {
    if es == [] then [] else es[0].hash + UrlsetPayload(es[1..])
  }

  function Line(e: Entry): Text { e.hash + [NUL] + ModText(e) + [NEWLINE] }

  function MetadataPayload(es: seq<Entry>): Text {
    if es == [] then [] else Line(es[0]) + MetadataPayload(es[1..])
  }

  function PrintOf(doc: Document): Print {
    var entries := Sort(doc.entries);
    Print(entries, doc.kind, doc.content, UrlsetPayload(entries), MetadataPayload(entries))
  }

  /** What a parser hands over: a hash of full width, and a lastmod without U+0000, which XML cannot hold. */
  predicate Plain(e: Entry) { |e.hash| == HASH_BYTES && NUL !in ModText(e) }

  ghost predicate AllPlain(es: seq<Entry>) { forall i :: 0 <= i < |es| ==> Plain(es[i]) }

  ghost predicate SameHashes(a: seq<Entry>, b: seq<Entry>) {
    |a| == |b| && forall i :: 0 <= i < |a| ==> a[i].hash == b[i].hash
  }

  ghost predicate SameLines(a: seq<Entry>, b: seq<Entry>) {
    |a| == |b| && forall i :: 0 <= i < |a| ==> a[i].hash == b[i].hash && ModText(a[i]) == ModText(b[i])
  }

  lemma ConcatInjective(a: Text, b: Text, x: Text, y: Text)
    requires a + x == b + y && |a| == |b|
    ensures a == b && x == y
  {
    assert a == (a + x)[..|a|] && b == (b + y)[..|b|];
    assert x == (a + x)[|a|..] && y == (b + y)[|b|..];
  }

  /** Fixed-width hashes: the URL-set payload tells the sequence of hashes. */
  lemma {:induction false} UrlsetPayloadTells(a: seq<Entry>, b: seq<Entry>)
    requires (forall i :: 0 <= i < |a| ==> |a[i].hash| == HASH_BYTES) && (forall i :: 0 <= i < |b| ==> |b[i].hash| == HASH_BYTES)
    ensures UrlsetPayload(a) == UrlsetPayload(b) <==> SameHashes(a, b)
  {
    if a == [] || b == [] {
    } else {
      assert forall i :: 0 <= i < |a[1..]| ==> a[1..][i] == a[i + 1];
      assert forall i :: 0 <= i < |b[1..]| ==> b[1..][i] == b[i + 1];
      UrlsetPayloadTells(a[1..], b[1..]);
      if UrlsetPayload(a) == UrlsetPayload(b) {
        ConcatInjective(a[0].hash, b[0].hash, UrlsetPayload(a[1..]), UrlsetPayload(b[1..]));
        assert forall i :: 0 < i < |a| ==> a[i] == a[1..][i - 1];
        assert forall i :: 0 < i < |b| ==> b[i] == b[1..][i - 1];
      }
    }
  }

  lemma {:induction false} MetadataPayloadSnoc(es: seq<Entry>, e: Entry)
    ensures MetadataPayload(es + [e]) == MetadataPayload(es) + Line(e)
  {
    if es == [] {
      assert [] + [e] == [e] && [e][1..] == [];
    } else {
      assert (es + [e])[1..] == es[1..] + [e];
      hide Line;
      MetadataPayloadSnoc(es[1..], e);
    }
  }

  lemma NotLonger(m: Text, n: Text, x: Text, y: Text)
    requires NUL !in m && x + [NUL] + m == y + [NUL] + n
    ensures |m| <= |n|
  {
    var s, t := x + [NUL] + m, y + [NUL] + n;
    assert t[|y|] == NUL && forall i :: |x| < i < |s| ==> s[i] == m[i - |x| - 1];
  }

  /** A text without NUL starts after the last NUL. */
  lemma LastNulSplits(m: Text, n: Text, x: Text, y: Text)
    requires NUL !in m && NUL !in n && x + [NUL] + m == y + [NUL] + n
    ensures m == n && x == y
  {
    NotLonger(m, n, x, y);
    NotLonger(n, m, y, x);
    assert x + [NUL] + m == x + ([NUL] + m) && y + [NUL] + n == y + ([NUL] + n);
    ConcatInjective(x, y, [NUL] + m, [NUL] + n);
    ConcatInjective([NUL], [NUL], m, n);
  }

  /** The last line can be told from what comes before it, line breaks in its lastmod or not. */
  lemma LastLineTells(a: Entry, b: Entry, x: Text, y: Text)
    requires Plain(a) && Plain(b) && x + Line(a) == y + Line(b)
    ensures a.hash == b.hash && ModText(a) == ModText(b) && x == y
  {
    var m, n := ModText(a), ModText(b);
    assert x + Line(a) == (x + a.hash + [NUL] + m) + [NEWLINE] && y + Line(b) == (y + b.hash + [NUL] + n) + [NEWLINE];
    ConcatInjective(x + a.hash + [NUL] + m, y + b.hash + [NUL] + n, [NEWLINE], [NEWLINE]);
    LastNulSplits(m, n, x + a.hash, y + b.hash);
    ConcatInjective(x, y, a.hash, b.hash);
  }

  lemma SameLine(a: Entry, b: Entry)
    requires a.hash == b.hash && ModText(a) == ModText(b)
    ensures Line(a) == Line(b)
  {
  }

  lemma SameLinesSnoc(p: seq<Entry>, a: Entry, q: seq<Entry>, b: Entry)
    ensures SameLines(p + [a], q + [b]) <==> SameLines(p, q) && a.hash == b.hash && ModText(a) == ModText(b)
  {
    var s, t := p + [a], q + [b];
    assert s[|p|] == a && t[|q|] == b;
    assert forall i :: 0 <= i < |p| ==> s[i] == p[i];
    assert forall i :: 0 <= i < |q| ==> t[i] == q[i];
  }

  /** The metadata payload tells hashes and lastmods, line breaks included; no lastmod and an empty one are alike. */
  lemma {:induction false} MetadataPayloadTells(a: seq<Entry>, b: seq<Entry>)
    requires AllPlain(a) && AllPlain(b)
    ensures MetadataPayload(a) == MetadataPayload(b) <==> SameLines(a, b)
    decreases |a|
  {
    if a != [] && b != [] {
      var p, q := a[..|a| - 1], b[..|b| - 1];
      var last, other := a[|a| - 1], b[|b| - 1];
      assert a == p + [last] && b == q + [other];
      MetadataPayloadTells(p, q);
      MetadataPayloadSnoc(p, last);
      MetadataPayloadSnoc(q, other);
      SameLinesSnoc(p, last, q, other);
      hide SameLines, MetadataPayload, Line, Plain;
      if MetadataPayload(a) == MetadataPayload(b) { LastLineTells(last, other, MetadataPayload(p), MetadataPayload(q)); }
      if SameLines(a, b) { SameLine(last, other); }
    }
  }

  /** So equal metadata fingerprints mean equal URL-set fingerprints. */
  lemma MetadataDecidesUrlset(a: seq<Entry>, b: seq<Entry>)
    requires AllPlain(a) && AllPlain(b) && MetadataPayload(a) == MetadataPayload(b)
    ensures UrlsetPayload(a) == UrlsetPayload(b) && |a| == |b|
  {
    MetadataPayloadTells(a, b);
    UrlsetPayloadTells(a, b);
  }
}

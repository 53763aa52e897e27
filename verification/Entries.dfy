/** Sitemap entries, their order, and the stable sort every later step starts with. */
module Entries {
  import opened Prelude

  newtype Byte = x: int | 0 <= x < 256

  // Text is kept as its UTF-8 bytes, whose order is the order of code points; a URL hash as the
  // bytes its hexadecimal form stands for.
  type Text = seq<Byte>

  datatype Entry = Entry(url: Text, rawUrl: Text, hash: Text, lastmod: Option<Text>)

  datatype Key = Key(hash: Text, url: Text)

  function KeyOf(e: Entry): Key { Key(e.hash, e.url) }

  predicate Less(a: Text, b: Text) {
    if b == [] then false
    else if a == [] then true
    else a[0] < b[0] || (a[0] == b[0] && Less(a[1..], b[1..]))
  }

  predicate Before(a: Key, b: Key) { Less(a.hash, b.hash) || (a.hash == b.hash && Less(a.url, b.url)) }

  lemma {:induction false} LessIsStrict(a: Text, b: Text)
    ensures Less(a, b) || a == b || Less(b, a)
    ensures !(Less(a, b) && Less(b, a)) && !Less(a, a)
    decreases |a|
  {
    if a != [] {
      LessIsStrict(a[1..], if b == [] then [] else b[1..]);
      if b != [] && a[0] == b[0] && a[1..] == b[1..] {
        assert a == [a[0]] + a[1..] && b == [b[0]] + b[1..];
      }
    }
  }

  lemma {:induction false} LessIsTransitive(a: Text, b: Text, c: Text)
    requires Less(a, b) && Less(b, c)
    ensures Less(a, c)
    decreases |a|
  {
    if a != [] && a[0] == b[0] && b[0] == c[0] { LessIsTransitive(a[1..], b[1..], c[1..]); }
  }

  /** Keys are totally ordered. */
  lemma BeforeIsStrict(a: Key, b: Key)
    ensures Before(a, b) || a == b || Before(b, a)
    ensures !(Before(a, b) && Before(b, a)) && !Before(a, a)
  {
    LessIsStrict(a.hash, b.hash);
    LessIsStrict(a.url, b.url);
    LessIsStrict(a.hash, a.hash);
    LessIsStrict(a.url, a.url);
  }

  lemma BeforeIsTransitive(a: Key, b: Key, c: Key)
    requires Before(a, b) && Before(b, c)
    ensures Before(a, c)
  {
    if Less(a.hash, b.hash) && Less(b.hash, c.hash) { LessIsTransitive(a.hash, b.hash, c.hash); }
    if Less(a.url, b.url) && Less(b.url, c.url) { LessIsTransitive(a.url, b.url, c.url); }
  }

  // ---------- sorting ----------

  /** No later entry comes before an earlier one. */
  ghost predicate Sorted(es: seq<Entry>) {
    forall i, j :: 0 <= i < j < |es| ==> !Before(KeyOf(es[j]), KeyOf(es[i]))
  }

  function Insert(e: Entry, es: seq<Entry>): seq<Entry> {
    if es != [] && Before(KeyOf(es[0]), KeyOf(e)) then [es[0]] + Insert(e, es[1..]) else [e] + es
  }

  /** Python's sorted with the key (url_hash, normalized_url): stable. */
  function Sort(es: seq<Entry>): seq<Entry> {
    if es == [] then [] else Insert(es[0], Sort(es[1..]))
  }

  /** The entries of one key, in order. */
  function Occ(es: seq<Entry>, k: Key): seq<Entry> {
    if es == [] then []
    else if KeyOf(es[0]) == k then [es[0]] + Occ(es[1..], k)
    else Occ(es[1..], k)
  }

  lemma {:induction false} InsertKeeps(e: Entry, es: seq<Entry>)
    ensures multiset(Insert(e, es)) == multiset(es) + multiset{e}
    ensures forall x :: x in Insert(e, es) <==> x == e || x in es
  {
    if es != [] && Before(KeyOf(es[0]), KeyOf(e)) {
      InsertKeeps(e, es[1..]);
      assert es == [es[0]] + es[1..];
    }
  }

  /** The head of a sorted sequence comes first, and what follows is sorted. */
  ghost predicate HeadFirst(es: seq<Entry>)
    requires es != []
  {
    Sorted(es[1..]) && forall x :: x in es[1..] ==> !Before(KeyOf(x), KeyOf(es[0]))
  }

  lemma SortedByHead(es: seq<Entry>)
    requires es != []
    ensures Sorted(es) <==> HeadFirst(es)
  {
    hide Before;
    var rest := es[1..];
    assert forall i :: 0 <= i < |rest| ==> rest[i] == es[i + 1];
    if HeadFirst(es) {
      forall i, j | 0 <= i < j < |es| ensures !Before(KeyOf(es[j]), KeyOf(es[i])) {
        assert rest[j - 1] in rest;
        if i > 0 { assert !Before(KeyOf(rest[j - 1]), KeyOf(rest[i - 1])); }
      }
    }
  }

  lemma {:induction false} InsertSorts(e: Entry, es: seq<Entry>)
    requires Sorted(es)
    ensures Sorted(Insert(e, es))
  {
    hide Sorted, Before;
    var result := Insert(e, es);
    SortedByHead(result);
    if es != [] { SortedByHead(es); }
    if es != [] && Before(KeyOf(es[0]), KeyOf(e)) {
      InsertSorts(e, es[1..]);
      InsertKeeps(e, es[1..]);
      assert result[1..] == Insert(e, es[1..]);
      BeforeIsStrict(KeyOf(es[0]), KeyOf(e));
    } else {
      assert result[1..] == es;
      forall x | x in es ensures !Before(KeyOf(x), KeyOf(e)) {
        if x != es[0] && Before(KeyOf(x), KeyOf(e)) {
          assert x in es[1..];
          BeforeIsStrict(KeyOf(es[0]), KeyOf(e));
          BeforeIsStrict(KeyOf(es[0]), KeyOf(x));
          if Before(KeyOf(e), KeyOf(es[0])) { BeforeIsTransitive(KeyOf(x), KeyOf(e), KeyOf(es[0])); }
        }
      }
    }
  }

  lemma {:induction false} InsertIsStable(e: Entry, es: seq<Entry>, k: Key)
    ensures Occ(Insert(e, es), k) == Occ([e] + es, k)
  {
    hide Before;
    assert ([e] + es)[1..] == es;
    if es != [] && Before(KeyOf(es[0]), KeyOf(e)) {
      InsertIsStable(e, es[1..], k);
      BeforeIsStrict(KeyOf(es[0]), KeyOf(e));
      assert ([e] + es[1..])[1..] == es[1..];
      assert Insert(e, es)[1..] == Insert(e, es[1..]);
    } else {
      assert Insert(e, es) == [e] + es;
    }
  }

  /** Sorting orders the entries, keeps them all, and keeps the order of entries of one key. */
  lemma {:induction false} SortIsStable(es: seq<Entry>)
    ensures Sorted(Sort(es)) && multiset(Sort(es)) == multiset(es)
    ensures forall k :: Occ(Sort(es), k) == Occ(es, k)
  {
    if es != [] {
      hide Sorted, Before, Insert;
      SortIsStable(es[1..]);
      InsertSorts(es[0], Sort(es[1..]));
      assert multiset(Sort(es)) == multiset(es) by {
        InsertKeeps(es[0], Sort(es[1..]));
        assert es == [es[0]] + es[1..];
      }
      forall k ensures Occ(Sort(es), k) == Occ(es, k) {
        InsertIsStable(es[0], Sort(es[1..]), k);
        assert ([es[0]] + Sort(es[1..]))[1..] == Sort(es[1..]);
      }
    }
  }

  /** By hash first, then by URL. */
  lemma SortTells(es: seq<Entry>, i: nat, j: nat)
    requires i < j < |Sort(es)|
    ensures var a, b := Sort(es)[i], Sort(es)[j]; Less(a.hash, b.hash) || (a.hash == b.hash && !Less(b.url, a.url))
    ensures KeyOf(Sort(es)[i]) == KeyOf(Sort(es)[j]) <==> Sort(es)[i].hash == Sort(es)[j].hash && Sort(es)[i].url == Sort(es)[j].url
  {
    SortIsStable(es);
    LessIsStrict(Sort(es)[i].hash, Sort(es)[j].hash);
  }

  lemma SortKeepsMembers(es: seq<Entry>, e: Entry)
    ensures e in Sort(es) <==> e in es
  {
    SortIsStable(es);
    assert e in es <==> e in multiset(es);
    assert e in Sort(es) <==> e in multiset(Sort(es));
  }

  lemma {:induction false} InsertLengthens(e: Entry, es: seq<Entry>)
    ensures |Insert(e, es)| == |es| + 1
  {
    hide Before;
    if es != [] && Before(KeyOf(es[0]), KeyOf(e)) { InsertLengthens(e, es[1..]); }
  }

  lemma {:induction false} SortKeepsLength(es: seq<Entry>)
    ensures |Sort(es)| == |es|
  {
    if es != [] {
      SortKeepsLength(es[1..]);
      InsertLengthens(es[0], Sort(es[1..]));
    }
  }

  lemma {:induction false} SortOfSorted(es: seq<Entry>)
    requires Sorted(es)
    ensures Sort(es) == es
  {
    if es != [] {
      SortedByHead(es);
      hide Sorted, Before;
      SortOfSorted(es[1..]);
      if |es| > 1 { assert es[1] in es[1..]; }
      assert es == [es[0]] + es[1..];
    }
  }

  /** A key absent from a sorted sequence because even its head lies beyond it. */
  lemma {:induction false} NoneBeyond(es: seq<Entry>, k: Key)
    requires Sorted(es) && (es != [] ==> Before(k, KeyOf(es[0])))
    ensures Occ(es, k) == []
  {
    if es != [] {
      SortedByHead(es);
      hide Sorted, Before;
      BeforeIsStrict(k, KeyOf(es[0]));
      if |es| > 1 {
        assert es[1] in es[1..];
        BeforeIsStrict(KeyOf(es[0]), KeyOf(es[1]));
        if Before(KeyOf(es[0]), KeyOf(es[1])) { BeforeIsTransitive(k, KeyOf(es[0]), KeyOf(es[1])); }
      }
      NoneBeyond(es[1..], k);
    }
  }

  // ---------- keys and identities as multisets ----------

  /** What an entry is worth apart from its raw URL. */
  datatype Identity = Identity(key: Key, lastmod: Option<Text>)

  function IdOf(e: Entry): Identity { Identity(KeyOf(e), e.lastmod) }

  function Ids(es: seq<Entry>): multiset<Identity> {
    if es == [] then multiset{} else multiset{IdOf(es[0])} + Ids(es[1..])
  }

  function Keys(es: seq<Entry>): multiset<Key> {
    if es == [] then multiset{} else multiset{KeyOf(es[0])} + Keys(es[1..])
  }

  lemma {:induction false} InsertIds(e: Entry, es: seq<Entry>)
    ensures Ids(Insert(e, es)) == multiset{IdOf(e)} + Ids(es)
    ensures Keys(Insert(e, es)) == multiset{KeyOf(e)} + Keys(es)
  {
    hide Before;
    if es != [] && Before(KeyOf(es[0]), KeyOf(e)) {
      InsertIds(e, es[1..]);
      assert Insert(e, es)[1..] == Insert(e, es[1..]);
    } else {
      assert Insert(e, es) == [e] + es && Insert(e, es)[1..] == es;
    }
  }

  lemma {:induction false} SortKeepsIds(es: seq<Entry>)
    ensures Ids(Sort(es)) == Ids(es) && Keys(Sort(es)) == Keys(es)
  {
    if es != [] {
      hide Insert;
      SortKeepsIds(es[1..]);
      InsertIds(es[0], Sort(es[1..]));
    }
  }

  function IdCount(es: seq<Entry>, x: Identity): nat {
    if es == [] then 0 else (if IdOf(es[0]) == x then 1 else 0) + IdCount(es[1..], x)
  }

  lemma {:induction false} IdsCount(es: seq<Entry>, x: Identity)
    ensures Ids(es)[x] == IdCount(es, x)
  {
    if es != [] { IdsCount(es[1..], x); }
  }

  lemma {:induction false} KeysCountOcc(es: seq<Entry>, k: Key)
    ensures Keys(es)[k] == |Occ(es, k)|
  {
    if es != [] { KeysCountOcc(es[1..], k); }
  }
}

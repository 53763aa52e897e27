/** Checks that overlap: each goes its own steps between the steps of the others, and may stop anywhere. */
module ResourceRace {
  import opened Prelude
  import opened Entries
  import opened Fingerprint
  import opened Codec
  import opened Resources
  import opened ResourceSafety
  import opened ResourceChecks

  /**
   A check in flight: the row it read at its start, the writes it has still to perform, and whether
   these are its last. A document's are known only once the previous state was read.
   */
  datatype Flight = Flight(url: Text, answer: Answer, run: nat, seen: Option<ResourceRow>, rest: seq<Write>, planned: bool)

  datatype World = World(store: Store, flights: seq<Flight>)

  const NEW := World(Store(map[], map[], []), [])

  /** `Settle` performs all that is left of a flight without interruption. */
  datatype Event = Begin(url: Text, answer: Answer, run: nat) | Proceed(flight: nat) | Settle(flight: nat)

  function RowsSeen(url: Text, seen: Option<ResourceRow>): map<Text, ResourceRow> {
    if seen.Some? then map[url := seen.value] else map[]
  }

  /** The objects as they are now, and of the rows what the check has read. */
  function View(url: Text, seen: Option<ResourceRow>, objects: Objects): Store { Store(objects, RowsSeen(url, seen), []) }

  function RowOf(s: Store, url: Text): Option<ResourceRow> { if url in s.rows then Some(s.rows[url]) else None }

  function Started(c: Codec, s: Store, url: Text, answer: Answer, run: nat): Flight {
    var seen := RowOf(s, url);
    var view := View(url, seen, s.objects);
    if answer.Body? then Flight(url, answer, run, seen, StatePut(view, url, PrintOf(answer.doc)), false)
    else Flight(url, answer, run, seen, Check(c, view, url, answer, run).writes, true)
  }

  /** The previous state is read from the objects as they are by then. */
  function Planned(c: Codec, f: Flight, objects: Objects): Flight
    requires f.answer.Body?
  {
    var view, p := View(f.url, f.seen, objects), PrintOf(f.answer.doc);
    f.(rest := Rest(c, view, f.url, p, f.answer.validators, f.run, objects).writes, planned := true)
  }

  function Proceeded(c: Codec, w: World, i: nat): World
    requires i < |w.flights|
  {
    var f := w.flights[i];
    if f.rest != [] then World(Perform(w.store, f.rest[0]), w.flights[i := f.(rest := f.rest[1..])])
    else if !f.planned && f.answer.Body? then w.(flights := w.flights[i := Planned(c, f, w.store.objects)])
    else w
  }

  function Settled(w: World, i: nat): World
    requires i < |w.flights|
  {
    World(PerformAll(w.store, w.flights[i].rest), w.flights[i := w.flights[i].(rest := [])])
  }

  function Happens(c: Codec, w: World, e: Event): World {
    match e
    case Begin(url, answer, run) => w.(flights := w.flights + [Started(c, w.store, url, answer, run)])
    case Proceed(i) => if i < |w.flights| then Proceeded(c, w, i) else w
    case Settle(i) => if i < |w.flights| && w.flights[i].planned then Settled(w, i) else w
  }

  function Ran(c: Codec, w: World, events: seq<Event>): World
    decreases |events|
  {
    if events == [] then w else Ran(c, Happens(c, w, events[0]), events[1..])
  }

  /** Alone, a check in flight performs what a check performs. */
  lemma AloneIsCheck(c: Codec, s: Store, url: Text, doc: Document, v: Validators, run: nat)
    ensures var f := Started(c, s, url, Body(doc, v), run);
      var stated := PerformAll(s, f.rest);
      f.rest + Planned(c, f, stated.objects).rest == Check(c, s, url, Body(doc, v), run).writes
  {
  }

  // ---------- what holds of a check in flight ----------

  /** A write that is safe whatever the rows are, and does not report a lost state. */
  ghost predicate Fits(c: Codec, known: set<Text>, objects: Objects, w: Write) {
    Safe(c, known, Store(objects, map[], []), w) && !LosesState(w)
  }

  ghost predicate AllFit(c: Codec, known: set<Text>, objects: Objects, ws: seq<Write>) {
    forall i :: 0 <= i < |ws| ==> Fits(c, known, objects, ws[i])
  }

  /** The row that a document will be saved as. */
  function Coming(f: Flight): ResourceRow
    requires f.answer.Body?
  {
    var p := PrintOf(f.answer.doc);
    RowFor(StateKeyFor(View(f.url, f.seen, map[]), f.url, p), p, f.answer.validators)
  }

  /** Before its plan a flight has its state object to write, or it is there. */
  ghost predicate Opens(c: Codec, f: Flight, objects: Objects) {
    f.answer.Body? &&
    if f.rest == [] then RowFits(c, f.url, Coming(f), objects)
    else f.rest == StatePut(View(f.url, f.seen, map[]), f.url, PrintOf(f.answer.doc))
  }

  ghost predicate FlightFits(c: Codec, known: set<Text>, f: Flight, objects: Objects) {
    && AnswerFits(c, known, f.answer)
    && RowsFit(c, RowsSeen(f.url, f.seen), objects)
    && AllFit(c, known, objects, f.rest)
    && (f.planned || Opens(c, f, objects))
  }

  ghost predicate FlightsFit(c: Codec, known: set<Text>, flights: seq<Flight>, objects: Objects) {
    forall i :: 0 <= i < |flights| ==> FlightFits(c, known, flights[i], objects)
  }

  predicate NothingLost(runs: seq<RunRecord>) { forall i :: 0 <= i < |runs| ==> !LosesState(Record(runs[i])) }

  ghost predicate WorldFits(c: Codec, known: set<Text>, w: World) {
    Inv(c, known, w.store) && FlightsFit(c, known, w.flights, w.store.objects) && NothingLost(w.store.runs)
  }

  // ---------- what others do keeps a flight ----------

  lemma PutKeepsFits(c: Codec, known: set<Text>, objects: Objects, key: ObjectKey, blob: Blob, w: Write)
    requires ObjectsFit(c, known, objects) && NoCollisions(c, known) && ObjectFits(c, known, key, map[key := blob])
    requires Fits(c, known, objects, w)
    ensures Fits(c, known, objects[key := blob], w)
  {
    if w.Save? { PutKeepsRow(c, known, objects, key, blob, w.url, w.row); }
  }

  lemma PutKeepsRow(c: Codec, known: set<Text>, objects: Objects, key: ObjectKey, blob: Blob, url: Text, row: ResourceRow)
    requires ObjectsFit(c, known, objects) && NoCollisions(c, known) && ObjectFits(c, known, key, map[key := blob])
    requires RowFits(c, url, row, objects)
    ensures RowFits(c, url, row, objects[key := blob])
  {
    var rows := map[url := row];
    PutKeepsRows(c, known, rows, objects, key, blob);
    assert rows[url] == row;
  }

  lemma PutKeepsFlight(c: Codec, known: set<Text>, objects: Objects, key: ObjectKey, blob: Blob, f: Flight)
    requires ObjectsFit(c, known, objects) && NoCollisions(c, known) && ObjectFits(c, known, key, map[key := blob])
    requires FlightFits(c, known, f, objects)
    ensures FlightFits(c, known, f, objects[key := blob])
  {
    var after := objects[key := blob];
    hide ObjectsFit, NoCollisions, ObjectFits, RowsFit, RowFits, Fits, StatePut, Coming, PrintOf, AnswerFits;
    PutKeepsRows(c, known, RowsSeen(f.url, f.seen), objects, key, blob);
    forall i | 0 <= i < |f.rest| ensures Fits(c, known, after, f.rest[i]) {
      PutKeepsFits(c, known, objects, key, blob, f.rest[i]);
    }
    if !f.planned && f.rest == [] { PutKeepsRow(c, known, objects, key, blob, f.url, Coming(f)); }
  }

  /** A fitting write keeps the store, and what every flight relies on. */
  lemma WriteKeepsFlights(c: Codec, known: set<Text>, s: Store, w: Write, flights: seq<Flight>)
    requires Inv(c, known, s) && NoCollisions(c, known) && Fits(c, known, s.objects, w)
    requires FlightsFit(c, known, flights, s.objects) && NothingLost(s.runs)
    ensures var t := Perform(s, w); Inv(c, known, t) && FlightsFit(c, known, flights, t.objects) && NothingLost(t.runs)
  {
    assert Safe(c, known, s, w);
    PerformKeepsInv(c, known, s, w);
    hide FlightFits, NoCollisions, RowsFit, ObjectFits;
    if w.Put? {
      forall i | 0 <= i < |flights| ensures FlightFits(c, known, flights[i], Perform(s, w).objects) {
        PutKeepsFlight(c, known, s.objects, w.key, w.blob, flights[i]);
      }
    }
  }

  // ---------- what a flight does itself ----------

  lemma SafeAllFit(c: Codec, known: set<Text>, objects: Objects, url: Text, answer: Answer, run: nat, seen: Option<ResourceRow>)
    requires !answer.Body?
    ensures AllFit(c, known, objects, Check(c, View(url, seen, objects), url, answer, run).writes)
  {
    hide LoadIndex;
  }

  /** The state that a document brings, seen from the row that was read. */
  lemma OpeningFits(c: Codec, known: set<Text>, objects: Objects, url: Text, seen: Option<ResourceRow>, doc: Document,
                    v: Validators)
    requires ObjectsFit(c, known, objects) && RowsFit(c, RowsSeen(url, seen), objects)
    requires DocFits(c, known, doc) && NoCollisions(c, known)
    ensures var view, p := View(url, seen, objects), PrintOf(doc);
      && AllFit(c, known, objects, StatePut(view, url, p))
      && RowFits(c, url, RowFor(StateKeyFor(view, url, p), p, v), PerformAll(view, StatePut(view, url, p)).objects)
  {
    var view, p := View(url, seen, objects), PrintOf(doc);
    StatePutIsSafe(c, known, view, url, doc);
    StatedHolds(c, known, view, url, doc, v);
  }

  lemma StartedFits(c: Codec, known: set<Text>, s: Store, url: Text, answer: Answer, run: nat)
    requires Inv(c, known, s) && NoCollisions(c, known) && AnswerFits(c, known, answer)
    ensures FlightFits(c, known, Started(c, s, url, answer, run), s.objects)
  {
    var seen := RowOf(s, url);
    assert RowsFit(c, RowsSeen(url, seen), s.objects);
    if answer.Body? {
      OpeningFits(c, known, s.objects, url, seen, answer.doc, answer.validators);
      hide NoCollisions, ObjectsFit, RowsFit, RowFits, Fits, AnswerFits, DocFits, PrintOf, Check;
    } else {
      SafeAllFit(c, known, s.objects, url, answer, run, seen);
    }
  }

  lemma PlannedFits(c: Codec, known: set<Text>, f: Flight, objects: Objects)
    requires FlightFits(c, known, f, objects) && !f.planned && f.rest == []
    ensures FlightFits(c, known, Planned(c, f, objects), objects)
  {
    var view, p := View(f.url, f.seen, objects), PrintOf(f.answer.doc);
    var rest := Rest(c, view, f.url, p, f.answer.validators, f.run, objects).writes;
    assert RowFor(StateKeyFor(view, f.url, p), p, f.answer.validators) == Coming(f);
    if f.seen.Some? {
      assert RowFits(c, f.url, RowsSeen(f.url, f.seen)[f.url], objects);
    }
    hide RowsFit, AnswerFits, PrintOf, EntriesAt, MetadataPayload, UrlsetPayload;
    assert AllFit(c, known, objects, rest);
  }

  /** After its first write a flight stands as it should. */
  lemma AdvancedFits(c: Codec, known: set<Text>, s: Store, f: Flight)
    requires Inv(c, known, s) && NoCollisions(c, known) && FlightFits(c, known, f, s.objects) && f.rest != []
    ensures FlightFits(c, known, f.(rest := f.rest[1..]), Perform(s, f.rest[0]).objects)
  {
    var w := f.rest[0];
    var t, g := Perform(s, w), f.(rest := f.rest[1..]);
    if w.Put? { PutKeepsFlight(c, known, s.objects, w.key, w.blob, f); }
    assert FlightFits(c, known, f, t.objects);
    forall i | 0 <= i < |g.rest| ensures Fits(c, known, t.objects, g.rest[i]) {
      assert g.rest[i] == f.rest[i + 1] && Fits(c, known, t.objects, f.rest[i + 1]);
    }
    if !f.planned {
      OpeningFits(c, known, s.objects, f.url, f.seen, f.answer.doc, f.answer.validators);
      StatedIs(View(f.url, f.seen, s.objects), f.url, PrintOf(f.answer.doc));
    }
  }

  lemma ProceedKeepsWorld(c: Codec, known: set<Text>, w: World, i: nat)
    requires WorldFits(c, known, w) && NoCollisions(c, known) && i < |w.flights|
    ensures WorldFits(c, known, Proceeded(c, w, i))
  {
    var f, t := w.flights[i], Proceeded(c, w, i);
    assert FlightFits(c, known, f, w.store.objects);
    if f.rest != [] {
      assert Fits(c, known, w.store.objects, f.rest[0]);
      hide Inv, NoCollisions, Fits;
      WriteKeepsFlights(c, known, w.store, f.rest[0], w.flights);
      AdvancedFits(c, known, w.store, f);
    } else if !f.planned {
      hide Inv, NoCollisions, Fits;
      PlannedFits(c, known, f, w.store.objects);
    }
  }

  /** To settle is to proceed until nothing is left. */
  lemma SettleUnfolds(c: Codec, w: World, i: nat)
    requires i < |w.flights| && w.flights[i].rest != []
    ensures Settled(w, i) == Settled(Proceeded(c, w, i), i)
  {
    var f, t := w.flights[i], Proceeded(c, w, i);
    assert t.flights[i].rest == f.rest[1..];
    assert w.flights[i := f.(rest := [])] == t.flights[i := t.flights[i].(rest := [])];
  }

  lemma {:induction false} SettleKeepsWorld(c: Codec, known: set<Text>, w: World, i: nat)
    requires WorldFits(c, known, w) && NoCollisions(c, known) && i < |w.flights| && w.flights[i].planned
    ensures WorldFits(c, known, Settled(w, i))
    decreases if i < |w.flights| then |w.flights[i].rest| else 0
  {
    hide WorldFits, NoCollisions, Perform;
    if w.flights[i].rest == [] {
      assert w.flights[i := w.flights[i].(rest := [])] == w.flights;
      assert Settled(w, i) == w;
    } else {
      ProceedKeepsWorld(c, known, w, i);
      SettleUnfolds(c, w, i);
      SettleKeepsWorld(c, known, Proceeded(c, w, i), i);
    }
  }

  lemma EventKeepsWorld(c: Codec, known: set<Text>, w: World, e: Event)
    requires WorldFits(c, known, w) && NoCollisions(c, known) && (e.Begin? ==> AnswerFits(c, known, e.answer))
    ensures WorldFits(c, known, Happens(c, w, e))
  {
    match e
    case Begin(url, answer, run) => StartedFits(c, known, w.store, url, answer, run);
    case Proceed(i) => if i < |w.flights| { ProceedKeepsWorld(c, known, w, i); }
    case Settle(i) => if i < |w.flights| && w.flights[i].planned { SettleKeepsWorld(c, known, w, i); }
  }

  /**
   Whatever checks overlap and wherever they stop: every row's current state exists and matches it,
   and no run reports a lost or unreadable previous state.
   */
  lemma {:induction false} CurrentStatesExist(c: Codec, known: set<Text>, w: World, events: seq<Event>)
    requires WorldFits(c, known, w) && NoCollisions(c, known)
    requires forall i :: 0 <= i < |events| && events[i].Begin? ==> AnswerFits(c, known, events[i].answer)
    ensures WorldFits(c, known, Ran(c, w, events))
    decreases |events|
  {
    if events != [] {
      hide WorldFits, Happens, NoCollisions, AnswerFits;
      EventKeepsWorld(c, known, w, events[0]);
      assert forall i :: 0 <= i < |events[1..]| ==> events[1..][i] == events[i + 1];
      CurrentStatesExist(c, known, Happens(c, w, events[0]), events[1..]);
    }
  }
}

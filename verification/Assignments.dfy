/** The assignment rows of one tool: taxonomy_shadow.py's writers and the finalisation that calls them. */
module Assignments {
  import opened Prelude

  type TermId = nat
  type RunId = nat

  datatype Source = Auto | Manual

  datatype Status = Legacy | AutoAccepted | Provisional | Unresolved | Superseded | Verified | Rejected

  datatype Row = Row(run: Option<RunId>, primary: bool, confidence: real, status: Status, source: Source, updatedAt: int)

  type Rows = map<TermId, Row>

  /** The terms of the two dimensions. */
  datatype Catalog = Catalog(primaries: set<TermId>, capabilities: set<TermId>)

  const MIN_AUTO_PRIMARY := 0.5
  const MIN_PROVISIONAL := 0.35

  function ValidConfidence(c: real): real { if 0.0 <= c <= 1.0 then c else 0.0 }

  function Threshold(configured: real): real {
    if ValidConfidence(configured) < MIN_AUTO_PRIMARY then MIN_AUTO_PRIMARY else ValidConfidence(configured)
  }

  function DecidePrimaryStatus(confidence: real, configured: real): Status {
    if ValidConfidence(confidence) >= Threshold(configured) then AutoAccepted
    else if ValidConfidence(confidence) >= MIN_PROVISIONAL then Provisional
    else Unresolved
  }

  // ---------- statements ----------

  predicate Retirable(status: Status) { status.Legacy? || status.AutoAccepted? || status.Provisional? || status.Unresolved? }

  function Demoted(row: Row, now: int): Row {
    row.(primary := false, status := if Retirable(row.status) then Superseded else row.status, updatedAt := now)
  }

  /** Every other primary row gives way to the chosen term. */
  function Demote(rows: Rows, cat: Catalog, chosen: TermId, now: int): Rows {
    map id | id in rows :: if id != chosen && rows[id].primary && id in cat.primaries then Demoted(rows[id], now) else rows[id]
  }

  /** INSERT .. ON CONFLICT: a manual row keeps everything but its time of update. */
  function Insert(rows: Rows, id: TermId, row: Row): Rows {
    if id in rows && rows[id].source.Manual? then rows[id := rows[id].(updatedAt := row.updatedAt)] else rows[id := row]
  }

  function Upsert(rows: Rows, cat: Catalog, id: TermId, row: Row): Rows {
    Insert(if row.primary then Demote(rows, cat, id, row.updatedAt) else rows, id, row)
  }

  predicate Pending(status: Status) { status.Provisional? || status.Unresolved? || status.AutoAccepted? }

  predicate Supersedable(id: TermId, row: Row, dims: set<TermId>, exclude: Option<RunId>) {
    row.source.Auto? && Pending(row.status) && id in dims && (exclude.None? || row.run != exclude)
  }

  function SupersedeAuto(rows: Rows, dims: set<TermId>, exclude: Option<RunId>, now: int): Rows {
    map id | id in rows ::
      if Supersedable(id, rows[id], dims, exclude) then rows[id].(status := Superseded, primary := false, updatedAt := now)
      else rows[id]
  }

  predicate Locks(id: TermId, row: Row, cat: Catalog) {
    id in cat.primaries && row.primary && row.source.Manual? && row.status.Verified?
  }

  /** A human-verified primary exists. */
  ghost predicate ManualLock(rows: Rows, cat: Catalog) { exists id :: id in rows && Locks(id, rows[id], cat) }

  // ---------- finalisation ----------

  datatype Chosen = Chosen(term: TermId, confidence: real)

  /** What the batch pipeline accepted for a tool: an eligible primary, secondaries and capabilities. */
  datatype Decision = Decision(
    primary: Chosen, secondary: seq<Chosen>, capabilities: seq<Chosen>, capabilitiesRun: bool, run: Option<RunId>, threshold: real)

  predicate Sound(d: Decision, cat: Catalog) {
    && d.primary.term in cat.primaries
    && (forall i :: 0 <= i < |d.secondary| ==> d.secondary[i].term in cat.primaries && d.secondary[i].term != d.primary.term)
    && (forall i :: 0 <= i < |d.capabilities| ==>
          d.capabilities[i].term in cat.capabilities && d.capabilities[i].term !in cat.primaries)
  }

  function PrimaryRow(d: Decision, locked: bool, now: int): Row {
    Row(d.run, !locked, d.primary.confidence,
        if locked then Superseded else DecidePrimaryStatus(d.primary.confidence, d.threshold), Auto, now)
  }

  function UpsertAll(rows: Rows, cat: Catalog, chosen: seq<Chosen>, run: Option<RunId>, now: int): Rows
    decreases |chosen|
  {
    if chosen == [] then rows
    else
      var before := UpsertAll(rows, cat, chosen[..|chosen| - 1], run, now);
      var last := chosen[|chosen| - 1];
      Upsert(before, cat, last.term, Row(run, false, last.confidence, Provisional, Auto, now))
  }

  function Dimensions(d: Decision, cat: Catalog): set<TermId> {
    if d.capabilitiesRun then cat.primaries + cat.capabilities else cat.primaries
  }

  /** The rows after the primary, the secondaries and the capabilities were written. */
  function Written(rows: Rows, cat: Catalog, d: Decision, locked: bool, now: int): Rows {
    UpsertAll(UpsertAll(Upsert(rows, cat, d.primary.term, PrimaryRow(d, locked, now)), cat, d.secondary, d.run, now),
              cat, d.capabilities, d.run, now)
  }

  function Finalised(rows: Rows, cat: Catalog, d: Decision, locked: bool, now: int): Rows {
    SupersedeAuto(Written(rows, cat, d, locked, now), Dimensions(d, cat), d.run, now)
  }

  method LoadVerifiedManualPrimary(rows: Rows, cat: Catalog) returns (locked: bool)
    ensures locked <==> ManualLock(rows, cat)
  {
    var left := rows.Keys;
    while left != {}
      invariant left <= rows.Keys
      invariant forall id :: id in rows && id !in left ==> !Locks(id, rows[id], cat)
      decreases |left|
    {
      var id :| id in left;
      if Locks(id, rows[id], cat) { return true; }
      left := left - {id};
    }
    return false;
  }

  /** The tool's rows as the source writes them. */
  class ToolAssignments {
    const cat: Catalog
    var rows: Rows

    constructor (cat: Catalog)
      ensures this.cat == cat && rows == map[]
    {
      this.cat := cat;
      rows := map[];
    }

    method UpsertAssignment(id: TermId, run: Option<RunId>, primary: bool, confidence: real, status: Status, now: int)
      modifies this
      ensures rows == Upsert(old(rows), cat, id, Row(run, primary, confidence, status, Auto, now))
    {
      if primary { rows := Demote(rows, cat, id, now); }
      if id in rows && rows[id].source.Manual? {
        rows := rows[id := rows[id].(updatedAt := now)];
      } else {
        rows := rows[id := Row(run, primary, confidence, status, Auto, now)];
      }
    }

    /** Manual, verified and legacy rows stay; no pending automatic row is left but those of the excluded run. */
    method SupersedeAutoAssignments(dims: set<TermId>, exclude: Option<RunId>, now: int)
      modifies this
      ensures rows == SupersedeAuto(old(rows), dims, exclude, now)
      ensures rows.Keys == old(rows).Keys
      ensures forall id :: id in rows && (rows[id].source.Manual? || !Pending(old(rows)[id].status) || id !in dims) ==>
        rows[id] == old(rows)[id]
      ensures forall id :: id in rows && id in dims && rows[id].source.Auto? && Pending(rows[id].status) ==>
        exclude.Some? && rows[id].run == exclude && rows[id] == old(rows)[id]
    {
      rows := SupersedeAuto(rows, dims, exclude, now);
    }

    /** The assignment writes of finalize_classification. */
    method FinalizeClassification(d: Decision, now: int)
      modifies this
      ensures rows == Finalised(old(rows), cat, d, ManualLock(old(rows), cat), now)
    {
      ghost var start := rows;
      var locked := LoadVerifiedManualPrimary(rows, cat);
      var status := if locked then Superseded else DecidePrimaryStatus(d.primary.confidence, d.threshold);
      UpsertAssignment(d.primary.term, d.run, !locked, d.primary.confidence, status, now);
      WriteProvisional(d.secondary, d.run, now);
      WriteProvisional(d.capabilities, d.run, now);
      var dims := cat.primaries;
      if d.capabilitiesRun { dims := dims + cat.capabilities; }
      SupersedeAutoAssignments(dims, d.run, now);
    }

    method WriteProvisional(chosen: seq<Chosen>, run: Option<RunId>, now: int)
      modifies this
      ensures rows == UpsertAll(old(rows), cat, chosen, run, now)
    {
      ghost var start := rows;
      for i := 0 to |chosen|
        invariant rows == UpsertAll(start, cat, chosen[..i], run, now)
      {
        assert chosen[..i + 1][..i] == chosen[..i];
        UpsertAssignment(chosen[i].term, run, false, chosen[i].confidence, Provisional, now);
      }
      assert chosen[..|chosen|] == chosen;
    }
  }

  // ---------- what every finalisation keeps ----------

  ghost predicate OnePrimary(rows: Rows, cat: Catalog) {
    forall a, b :: a in rows && b in rows && a in cat.primaries && b in cat.primaries && rows[a].primary && rows[b].primary ==> a == b
  }

  predicate SameButTime(a: Row, b: Row) { a == b.(updatedAt := a.updatedAt) }

  /** Manual verified rows stay as they are, but for their time of update. */
  ghost predicate KeepsVerified(before: Rows, after: Rows) {
    forall id :: id in before && before[id].source.Manual? && before[id].status.Verified? ==>
      id in after && SameButTime(after[id], before[id])
  }

  /** A statement that turns no row primary and leaves manual rows alone. */
  ghost predicate Mild(before: Rows, after: Rows) {
    && (forall id :: id in after && after[id].primary ==> id in before && before[id].primary)
    && (forall id :: id in before && before[id].source.Manual? ==> id in after && SameButTime(after[id], before[id]))
    && (forall id :: id in before ==> id in after)
  }

  lemma {:induction false} UpsertAllIsMild(rows: Rows, cat: Catalog, chosen: seq<Chosen>, run: Option<RunId>, now: int)
    ensures Mild(rows, UpsertAll(rows, cat, chosen, run, now))
    ensures forall id :: id in rows && (forall i :: 0 <= i < |chosen| ==> chosen[i].term != id) ==>
      UpsertAll(rows, cat, chosen, run, now)[id] == rows[id]
    decreases |chosen|
  {
    if chosen != [] {
      UpsertAllIsMild(rows, cat, chosen[..|chosen| - 1], run, now);
    }
  }

  lemma SupersedeIsMild(rows: Rows, dims: set<TermId>, exclude: Option<RunId>, now: int)
    ensures Mild(rows, SupersedeAuto(rows, dims, exclude, now))
  {
  }

  lemma MildChains(a: Rows, b: Rows, c: Rows)
    requires Mild(a, b) && Mild(b, c)
    ensures Mild(a, c)
  {
  }

  /** After its primary row is written, a finalisation is mild. */
  lemma RestIsMild(rows: Rows, cat: Catalog, d: Decision, locked: bool, now: int)
    ensures Mild(Upsert(rows, cat, d.primary.term, PrimaryRow(d, locked, now)), Finalised(rows, cat, d, locked, now))
  {
    hide Mild, Upsert, UpsertAll, SupersedeAuto;
    var first := Upsert(rows, cat, d.primary.term, PrimaryRow(d, locked, now));
    var second := UpsertAll(first, cat, d.secondary, d.run, now);
    var third := UpsertAll(second, cat, d.capabilities, d.run, now);
    UpsertAllIsMild(first, cat, d.secondary, d.run, now);
    UpsertAllIsMild(second, cat, d.capabilities, d.run, now);
    SupersedeIsMild(third, Dimensions(d, cat), d.run, now);
    MildChains(first, second, third);
    MildChains(first, third, Finalised(rows, cat, d, locked, now));
  }

  /** The primary write: all other primaries are gone, unless a human holds the primary. */
  lemma PrimaryWriteKeeps(rows: Rows, cat: Catalog, d: Decision, now: int)
    requires d.primary.term in cat.primaries
    ensures var after := Upsert(rows, cat, d.primary.term, PrimaryRow(d, ManualLock(rows, cat), now));
      && KeepsVerified(rows, after)
      && (OnePrimary(rows, cat) || !ManualLock(rows, cat) ==> OnePrimary(after, cat))
  {
    if !ManualLock(rows, cat) { assert forall id :: id in rows ==> !Locks(id, rows[id], cat); }
  }

  lemma MildKeeps(before: Rows, after: Rows, cat: Catalog)
    requires Mild(before, after)
    ensures OnePrimary(before, cat) ==> OnePrimary(after, cat)
    ensures KeepsVerified(before, after)
  {
  }

  lemma VerifiedChains(a: Rows, b: Rows, c: Rows)
    requires KeepsVerified(a, b) && KeepsVerified(b, c)
    ensures KeepsVerified(a, c)
  {
  }

  lemma FinalisationKeeps(rows: Rows, cat: Catalog, d: Decision, now: int)
    requires d.primary.term in cat.primaries
    ensures var after := Finalised(rows, cat, d, ManualLock(rows, cat), now);
      KeepsVerified(rows, after) && (OnePrimary(rows, cat) || !ManualLock(rows, cat) ==> OnePrimary(after, cat))
  {
    var locked := ManualLock(rows, cat);
    var first := Upsert(rows, cat, d.primary.term, PrimaryRow(d, locked, now));
    PrimaryWriteKeeps(rows, cat, d, now);
    RestIsMild(rows, cat, d, locked, now);
    hide Upsert, Finalised, Mild, KeepsVerified, OnePrimary, ManualLock;
    MildKeeps(first, Finalised(rows, cat, d, locked, now), cat);
    VerifiedChains(rows, first, Finalised(rows, cat, d, locked, now));
  }

  function FinaliseAll(rows: Rows, cat: Catalog, ds: seq<Decision>, locks: seq<bool>, times: seq<int>): Rows
    requires |ds| == |locks| == |times|
    decreases |ds|
  {
    if ds == [] then rows
    else FinaliseAll(Finalised(rows, cat, ds[0], locks[0], times[0]), cat, ds[1..], locks[1..], times[1..])
  }

  /** Each finalisation saw the lock there was. */
  ghost predicate Legal(rows: Rows, cat: Catalog, ds: seq<Decision>, locks: seq<bool>, times: seq<int>)
    requires |ds| == |locks| == |times|
    decreases |ds|
  {
    ds == [] ||
    (locks[0] == ManualLock(rows, cat) && Sound(ds[0], cat) &&
     Legal(Finalised(rows, cat, ds[0], locks[0], times[0]), cat, ds[1..], locks[1..], times[1..]))
  }

  /** Over any finalisations a tool keeps at most one primary, and every manual verified row. */
  lemma {:induction false} FinalisationsKeepPrimaryAndVerified(
    rows: Rows, cat: Catalog, ds: seq<Decision>, locks: seq<bool>, times: seq<int>)
    requires |ds| == |locks| == |times| && Legal(rows, cat, ds, locks, times) && OnePrimary(rows, cat)
    ensures OnePrimary(FinaliseAll(rows, cat, ds, locks, times), cat)
    ensures KeepsVerified(rows, FinaliseAll(rows, cat, ds, locks, times))
    decreases |ds|
  {
    if ds != [] {
      var next := Finalised(rows, cat, ds[0], locks[0], times[0]);
      FinalisationKeeps(rows, cat, ds[0], times[0]);
      hide Finalised, OnePrimary, KeepsVerified, ManualLock;
      FinalisationsKeepPrimaryAndVerified(next, cat, ds[1..], locks[1..], times[1..]);
      VerifiedChains(rows, next, FinaliseAll(next, cat, ds[1..], locks[1..], times[1..]));
    }
  }

  // ---------- where the chosen leaf ends up ----------

  predicate ManualNonPrimary(rows: Rows, id: TermId) { id in rows && rows[id].source.Manual? && !rows[id].primary }

  lemma PrimaryWriteLands(rows: Rows, cat: Catalog, d: Decision, now: int)
    requires d.primary.term in cat.primaries && !ManualLock(rows, cat)
    ensures var after := Upsert(rows, cat, d.primary.term, PrimaryRow(d, false, now)); var id := d.primary.term;
      && id in after && (after[id].primary <==> !ManualNonPrimary(rows, id))
      && (after[id].source.Auto? ==> after[id] == PrimaryRow(d, false, now))
      && (forall k :: k in after && k in cat.primaries && after[k].primary ==> k == id)
  {
  }

  lemma WrittenKeepsChosen(rows: Rows, cat: Catalog, d: Decision, locked: bool, now: int)
    requires Sound(d, cat)
    ensures var first := Upsert(rows, cat, d.primary.term, PrimaryRow(d, locked, now));
      d.primary.term in first && d.primary.term in Written(rows, cat, d, locked, now) &&
      Written(rows, cat, d, locked, now)[d.primary.term] == first[d.primary.term]
  {
    var first := Upsert(rows, cat, d.primary.term, PrimaryRow(d, locked, now));
    assert d.primary.term in first;
    hide Upsert, PrimaryRow, Mild;
    UpsertAllIsMild(first, cat, d.secondary, d.run, now);
    var second := UpsertAll(first, cat, d.secondary, d.run, now);
    assert second[d.primary.term] == first[d.primary.term];
    UpsertAllIsMild(second, cat, d.capabilities, d.run, now);
  }

  /**
   Without a human lock, a finalisation of a recorded run leaves exactly the chosen leaf primary,
   except when a manual non-primary row holds that term: then the tool is left without a primary.
   */
  lemma ChosenLeafIsPrimary(rows: Rows, cat: Catalog, d: Decision, now: int)
    requires Sound(d, cat) && !ManualLock(rows, cat) && d.run.Some?
    ensures var after := Finalised(rows, cat, d, false, now); var id := d.primary.term;
      && id in after && (after[id].primary <==> !ManualNonPrimary(rows, id))
      && (forall k :: k in after && k in cat.primaries && after[k].primary ==> k == id)
      && (after[id].source.Auto? ==> after[id] == PrimaryRow(d, false, now))
  {
    var first := Upsert(rows, cat, d.primary.term, PrimaryRow(d, false, now));
    PrimaryWriteLands(rows, cat, d, now);
    WrittenKeepsChosen(rows, cat, d, false, now);
    assert first[d.primary.term].source.Auto? ==> first[d.primary.term].run == d.run;
    hide Upsert, Written, ManualLock, Sound;
    RestIsMild(rows, cat, d, false, now);
  }

  /**
   Without a human lock, and whatever rows and run there are: the chosen term ends primary exactly
   when a manual row that holds it is primary, or else when the run is recorded.  Without a recorded
   run the closing statement supersedes the very row just written.
   */
  lemma ChosenTermEndsPrimary(rows: Rows, cat: Catalog, d: Decision, now: int)
    requires Sound(d, cat) && !ManualLock(rows, cat)
    ensures var after := Finalised(rows, cat, d, false, now); var id := d.primary.term;
      && id in after
      && (after[id].primary <==> if id in rows && rows[id].source.Manual? then rows[id].primary else d.run.Some?)
      && (forall k :: k in after && k in cat.primaries && after[k].primary ==> k == id)
      && (d.run.None? && after[id].source.Auto? ==> after[id].status.Superseded?)
  {
    var first := Upsert(rows, cat, d.primary.term, PrimaryRow(d, false, now));
    PrimaryWriteLands(rows, cat, d, now);
    WrittenKeepsChosen(rows, cat, d, false, now);
    ChosenRowSource(rows, cat, d, now);
    assert first[d.primary.term].source.Auto? ==> first[d.primary.term].run == d.run;
    hide Upsert, Written, ManualLock, Sound;
    RestIsMild(rows, cat, d, false, now);
  }

  lemma ChosenRowSource(rows: Rows, cat: Catalog, d: Decision, now: int)
    ensures var first := Upsert(rows, cat, d.primary.term, PrimaryRow(d, false, now)); var id := d.primary.term;
      id in first && (first[id].source.Manual? <==> id in rows && rows[id].source.Manual?)
  {
  }

  /** Every other automatic row of the dimensions that is not of this run ends superseded, or never was pending. */
  lemma OtherAutoRowsAreSuperseded(rows: Rows, cat: Catalog, d: Decision, locked: bool, now: int, id: TermId)
    requires d.run.Some? && id in Finalised(rows, cat, d, locked, now) && id in Dimensions(d, cat)
    ensures var row := Finalised(rows, cat, d, locked, now)[id];
      row.source.Auto? && row.run != d.run ==> !Pending(row.status)
  {
  }

  /**
   A finalisation that read no lock, though one has arrived since, keeps the verified rows exactly
   when all of them that are primary are on the chosen term: any other is demoted.
   */
  lemma LateVerificationIsDemoted(rows: Rows, cat: Catalog, d: Decision, now: int)
    requires Sound(d, cat)
    ensures KeepsVerified(rows, Finalised(rows, cat, d, false, now)) <==>
      forall id :: id in rows && Locks(id, rows[id], cat) ==> id == d.primary.term
  {
    var first := Upsert(rows, cat, d.primary.term, PrimaryRow(d, false, now));
    var after := Finalised(rows, cat, d, false, now);
    RestIsMild(rows, cat, d, false, now);
    MildKeeps(first, after, cat);
    if forall id :: id in rows && Locks(id, rows[id], cat) ==> id == d.primary.term {
      assert KeepsVerified(rows, first);
      hide Upsert, Finalised, Mild, KeepsVerified;
      VerifiedChains(rows, first, after);
    } else {
      var id :| id in rows && Locks(id, rows[id], cat) && id != d.primary.term;
      assert id in first && !first[id].primary;
      hide Upsert, Finalised;
      assert id in after ==> !after[id].primary;
    }
  }
}

/** What a finalisation leaves of each row of a tool, told from the row there was and the decision. */
module AssignmentOutcomes {
  import opened Prelude
  import opened Assignments

  /** The last entry that names the term. */
  function LastNamed(chosen: seq<Chosen>, id: TermId): Option<Chosen> {
    if chosen == [] then None
    else if chosen[|chosen| - 1].term == id then Some(chosen[|chosen| - 1])
    else LastNamed(chosen[..|chosen| - 1], id)
  }

  /** A human's row keeps all but its time; any other is replaced. */
  function Replaced(row: Option<Row>, given: Row): Row {
    if row.Some? && row.value.source == Manual then row.value.(updatedAt := given.updatedAt) else given
  }

  lemma {:induction false} NamedRowsAreProvisional(rows: Rows, cat: Catalog, chosen: seq<Chosen>, run: Option<RunId>, now: int, id: TermId)
    ensures var after, named := UpsertAll(rows, cat, chosen, run, now), LastNamed(chosen, id);
      var was := if id in rows then Some(rows[id]) else None;
      && (id in after <==> id in rows || named.Some?)
      && (id in after ==>
           after[id] == if named.None? then rows[id] else Replaced(was, Row(run, false, named.value.confidence, Provisional, Auto, now)))
    decreases |chosen|
  {
    if chosen != [] { NamedRowsAreProvisional(rows, cat, chosen[..|chosen| - 1], run, now, id); }
  }

  /** Another term's primary row gives way, unless a human holds the primary. */
  function GivenWay(row: Row, id: TermId, cat: Catalog, d: Decision, locked: bool, now: int): Row {
    if !locked && row.primary && id in cat.primaries && id != d.primary.term then
      row.(primary := false, updatedAt := now,
           status := if row.status == Verified || row.status == Rejected || row.status == Superseded then row.status else Superseded)
    else row
  }

  /** The status of the chosen primary: superseded under a lock, else by its confidence and the threshold, which is at least one half. */
  predicate PrimaryStatus(status: Status, confidence: real, threshold: real, locked: bool) {
    var c := if 0.0 <= confidence <= 1.0 then confidence else 0.0;
    if locked then status == Superseded
    else if c >= 0.5 && (0.0 <= threshold <= 1.0 ==> c >= threshold) then status == AutoAccepted
    else if c >= 0.35 then status == Provisional
    else status == Unresolved
  }

  lemma StatusIsTold(d: Decision, locked: bool, now: int)
    ensures var row := PrimaryRow(d, locked, now);
      && PrimaryStatus(row.status, d.primary.confidence, d.threshold, locked)
      && row == Row(d.run, !locked, d.primary.confidence, row.status, Auto, now)
  {
  }

  /** What the decision gives a term; a sound decision names it once. */
  function Given(d: Decision, id: TermId, status: Status, locked: bool, now: int): Option<Row> {
    if LastNamed(d.capabilities, id).Some? then Some(Row(d.run, false, LastNamed(d.capabilities, id).value.confidence, Provisional, Auto, now))
    else if LastNamed(d.secondary, id).Some? then Some(Row(d.run, false, LastNamed(d.secondary, id).value.confidence, Provisional, Auto, now))
    else if id == d.primary.term then Some(Row(d.run, !locked, d.primary.confidence, status, Auto, now))
    else None
  }

  /** An automatic row that still waits, of another run or of none, falls in the dimensions that were decided. */
  predicate Falls(row: Row, id: TermId, cat: Catalog, d: Decision) {
    && row.source == Auto && (row.status == Provisional || row.status == Unresolved || row.status == AutoAccepted)
    && (id in cat.primaries || (d.capabilitiesRun && id in cat.capabilities))
    && (d.run.None? || row.run != d.run)
  }

  function Fallen(row: Row, id: TermId, cat: Catalog, d: Decision, now: int): Row {
    if Falls(row, id, cat, d) then row.(status := Superseded, primary := false, updatedAt := now) else row
  }

  lemma WrittenTells(rows: Rows, cat: Catalog, d: Decision, locked: bool, now: int, id: TermId)
    requires Sound(d, cat)
    ensures var after, status := Written(rows, cat, d, locked, now), PrimaryRow(d, locked, now).status;
      var given := Given(d, id, status, locked, now);
      var was := if id in rows then Some(GivenWay(rows[id], id, cat, d, locked, now)) else None;
      && (id in after <==> id in rows || given.Some?)
      && (id in after ==> after[id] == if given.Some? then Replaced(was, given.value) else GivenWay(rows[id], id, cat, d, locked, now))
  {
    var first := Upsert(rows, cat, d.primary.term, PrimaryRow(d, locked, now));
    var second := UpsertAll(first, cat, d.secondary, d.run, now);
    StatusIsTold(d, locked, now);
    NamedRowsAreProvisional(first, cat, d.secondary, d.run, now, id);
    NamedRowsAreProvisional(second, cat, d.capabilities, d.run, now, id);
    NamedIsThere(d.secondary, id);
    NamedIsThere(d.capabilities, id);
    hide UpsertAll, LastNamed;
  }

  lemma {:induction false} NamedIsThere(chosen: seq<Chosen>, id: TermId)
    ensures LastNamed(chosen, id).Some? <==> exists i :: 0 <= i < |chosen| && chosen[i].term == id
  {
    if chosen != [] { NamedIsThere(chosen[..|chosen| - 1], id); }
  }

  /** Row by row: other primaries give way, the decision's rows are written, and what else waits falls. */
  lemma FinalisedTells(rows: Rows, cat: Catalog, d: Decision, locked: bool, now: int, id: TermId)
    requires Sound(d, cat)
    ensures var after := Finalised(rows, cat, d, locked, now);
      exists status :: PrimaryStatus(status, d.primary.confidence, d.threshold, locked) &&
        var given := Given(d, id, status, locked, now);
        var was := if id in rows then Some(GivenWay(rows[id], id, cat, d, locked, now)) else None;
        && (id in after <==> id in rows || given.Some?)
        && (id in after ==>
             after[id] == Fallen(if given.Some? then Replaced(was, given.value) else GivenWay(rows[id], id, cat, d, locked, now), id, cat, d, now))
  {
    WrittenTells(rows, cat, d, locked, now, id);
    StatusIsTold(d, locked, now);
    hide Written, GivenWay, Given, Replaced, PrimaryRow, PrimaryStatus, Sound;
  }
}

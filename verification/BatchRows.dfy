/** The assignment statements of a finalisation may be repeated after any prefix of them. */
module BatchRows {
  import opened Prelude
  import opened Assignments
  import opened BatchItems

  type Cell = Option<Row>

  function CellOf(rows: Rows, id: TermId): Cell { if id in rows then Some(rows[id]) else None }

  /** What a statement does to the row of one term. */
  function CellAfter(cell: Cell, cat: Catalog, id: TermId, w: RowWrite): Cell {
    match w
    case DemoteOthers(chosen) =>
      if cell.Some? && id != chosen && cell.value.primary && id in cat.primaries then Some(Demoted(cell.value, NOW)) else cell
    case InsertRow(term, row) =>
      if id != term then cell
      else if cell.Some? && cell.value.source.Manual? then Some(cell.value.(updatedAt := row.updatedAt))
      else Some(row)
    case Retire(dims, run) =>
      if cell.Some? && Supersedable(id, cell.value, dims, Some(run))
      then Some(cell.value.(status := Superseded, primary := false, updatedAt := NOW)) else cell
  }

  function Cells(cell: Cell, cat: Catalog, id: TermId, ws: seq<Write>): Cell
    decreases |ws|
  {
    if ws == [] then cell
    else Cells(if ws[0].WriteRow? then CellAfter(cell, cat, id, ws[0].rowWrite) else cell, cat, id, ws[1..])
  }

  lemma StatementActsByCell(rows: Rows, cat: Catalog, w: RowWrite, id: TermId)
    ensures CellOf(ApplyRow(rows, cat, w), id) == CellAfter(CellOf(rows, id), cat, id, w)
  {
  }

  lemma {:induction false} StatementsActByCell(j: Judge, w: World, ws: seq<Write>, id: TermId)
    ensures CellOf(PerformAll(j, w, ws).rows, id) == Cells(CellOf(w.rows, id), j.catalog, id, ws)
    decreases |ws|
  {
    if ws != [] {
      if ws[0].WriteRow? { StatementActsByCell(w.rows, j.catalog, ws[0].rowWrite, id); }
      hide CellAfter, ApplyRow;
      StatementsActByCell(j, Perform(j, w, ws[0]), ws[1..], id);
    }
  }

  lemma {:induction false} CellsAppend(cell: Cell, cat: Catalog, id: TermId, a: seq<Write>, b: seq<Write>)
    ensures Cells(cell, cat, id, a + b) == Cells(Cells(cell, cat, id, a), cat, id, b)
    decreases |a|
  {
    if a == [] {
      assert a + b == b;
    } else {
      hide CellAfter;
      assert (a + b)[1..] == a[1..] + b;
      CellsAppend(if a[0].WriteRow? then CellAfter(cell, cat, id, a[0].rowWrite) else cell, cat, id, a[1..], b);
    }
  }

  /** The inserts of a finalisation: automatic rows of this run, and none but the chosen term's primary. */
  predicate InsertOf(w: Write, run: RunId, chosen: TermId) {
    w.WriteRow? && w.rowWrite.InsertRow? && w.rowWrite.row.source.Auto? && w.rowWrite.row.updatedAt == NOW
    && (w.rowWrite.row.primary ==> w.rowWrite.id == chosen)
  }

  ghost predicate InsertsOf(ws: seq<Write>, run: RunId, chosen: TermId) {
    forall i :: 0 <= i < |ws| ==> InsertOf(ws[i], run, chosen)
  }

  /** The last row inserted for a term. */
  function LastInsert(ws: seq<Write>, id: TermId): Cell
    decreases |ws|
  {
    if ws == [] then None
    else
      var last := ws[|ws| - 1];
      if last.WriteRow? && last.rowWrite.InsertRow? && last.rowWrite.id == id then Some(last.rowWrite.row)
      else LastInsert(ws[..|ws| - 1], id)
  }

  lemma {:induction false} InsertsLeave(cell: Cell, cat: Catalog, id: TermId, ws: seq<Write>, run: RunId, chosen: TermId)
    requires InsertsOf(ws, run, chosen)
    ensures Cells(cell, cat, id, ws) ==
      if LastInsert(ws, id).None? then cell
      else if cell.Some? && cell.value.source.Manual? then Some(cell.value.(updatedAt := NOW))
      else LastInsert(ws, id)
    ensures LastInsert(ws, id).Some? ==>
      LastInsert(ws, id).value.source.Auto? && (LastInsert(ws, id).value.primary ==> id == chosen)
    decreases |ws|
  {
    if ws != [] {
      var before, last := ws[..|ws| - 1], ws[|ws| - 1];
      assert InsertOf(last, run, chosen);
      assert InsertsOf(before, run, chosen);
      InsertsLeave(cell, cat, id, before, run, chosen);
      assert ws == before + [last];
      hide InsertsOf;
      CellsAppend(cell, cat, id, before, [last]);
      assert [last][1..] == [];
      assert Cells(Cells(cell, cat, id, before), cat, id, [last]) == CellAfter(Cells(cell, cat, id, before), cat, id, last.rowWrite);
    }
  }

  /** A prefix of the inserts sets no more terms than all of them. */
  lemma {:induction false} PrefixInsertsLess(ws: seq<Write>, m: nat, id: TermId)
    requires m <= |ws| && LastInsert(ws[..m], id).Some?
    ensures LastInsert(ws, id).Some?
    decreases |ws|
  {
    if m < |ws| {
      assert ws[..|ws| - 1][..m] == ws[..m];
      PrefixInsertsLess(ws[..|ws| - 1], m, id);
    } else {
      assert ws[..m] == ws;
    }
  }

  function Inserts(d: Decision, locked: bool, run: RunId): seq<Write> {
    [WriteRow(InsertRow(d.primary.term, PrimaryRow(d, locked, NOW)))] + InsertAll(d.secondary, run) + InsertAll(d.capabilities, run)
  }

  function Demotes(d: Decision, locked: bool): seq<Write> {
    if locked then [] else [WriteRow(DemoteOthers(d.primary.term))]
  }

  function Retires(cat: Catalog, d: Decision, run: RunId): seq<Write> { [WriteRow(Retire(Dimensions(d, cat), run))] }

  lemma RowWritesParts(cat: Catalog, d: Decision, locked: bool, run: RunId)
    ensures RowWrites(cat, d, locked, run) == Demotes(d, locked) + Inserts(d, locked, run) + Retires(cat, d, run)
    ensures InsertsOf(Inserts(d, locked, run), run, d.primary.term)
  {
  }

  /** The three parts, on one cell. */
  function DemoteCell(cell: Cell, cat: Catalog, id: TermId, d: Decision, locked: bool): Cell {
    if locked then cell else CellAfter(cell, cat, id, DemoteOthers(d.primary.term))
  }

  function RetireCell(cell: Cell, cat: Catalog, id: TermId, d: Decision, run: RunId): Cell {
    CellAfter(cell, cat, id, Retire(Dimensions(d, cat), run))
  }

  lemma DemotesCell(cell: Cell, cat: Catalog, id: TermId, d: Decision, locked: bool)
    ensures Cells(cell, cat, id, Demotes(d, locked)) == DemoteCell(cell, cat, id, d, locked)
  {
    if !locked { assert Demotes(d, locked)[1..] == []; }
  }

  lemma RetiresCell(cell: Cell, cat: Catalog, id: TermId, d: Decision, run: RunId)
    ensures Cells(cell, cat, id, Retires(cat, d, run)) == RetireCell(cell, cat, id, d, run)
  {
    assert Retires(cat, d, run)[1..] == [];
    assert Cells(cell, cat, id, Retires(cat, d, run)) == Cells(RetireCell(cell, cat, id, d, run), cat, id, []);
  }

  lemma AllCells(cell: Cell, cat: Catalog, id: TermId, d: Decision, locked: bool, run: RunId)
    ensures Cells(cell, cat, id, RowWrites(cat, d, locked, run)) ==
      RetireCell(Cells(DemoteCell(cell, cat, id, d, locked), cat, id, Inserts(d, locked, run)), cat, id, d, run)
  {
    hide RowWrites, CellAfter, DemoteCell, RetireCell, Inserts, Demotes, Retires;
    RowWritesParts(cat, d, locked, run);
    CellsAppend(cell, cat, id, Demotes(d, locked) + Inserts(d, locked, run), Retires(cat, d, run));
    CellsAppend(cell, cat, id, Demotes(d, locked), Inserts(d, locked, run));
    DemotesCell(cell, cat, id, d, locked);
    RetiresCell(Cells(DemoteCell(cell, cat, id, d, locked), cat, id, Inserts(d, locked, run)), cat, id, d, run);
  }

  /** After the statements up to here, demoting again does nothing and inserting again comes out the same. */
  predicate Redoable(cell: Cell, done: Cell, cat: Catalog, id: TermId, d: Decision, locked: bool, run: RunId) {
    var inserts := Inserts(d, locked, run);
    && DemoteCell(done, cat, id, d, locked) == done
    && RetireCell(Cells(done, cat, id, inserts), cat, id, d, run)
         == RetireCell(Cells(DemoteCell(cell, cat, id, d, locked), cat, id, inserts), cat, id, d, run)
  }

  /** Cut among the inserts. */
  lemma InsertsRedo(cell: Cell, cat: Catalog, id: TermId, d: Decision, locked: bool, run: RunId, m: nat)
    requires m <= |Inserts(d, locked, run)|
    ensures Redoable(cell, Cells(DemoteCell(cell, cat, id, d, locked), cat, id, Inserts(d, locked, run)[..m]), cat, id, d, locked, run)
  {
    var inserts, x := Inserts(d, locked, run), DemoteCell(cell, cat, id, d, locked);
    RowWritesParts(cat, d, locked, run);
    assert InsertsOf(inserts[..m], run, d.primary.term);
    InsertsLeave(x, cat, id, inserts[..m], run, d.primary.term);
    InsertsLeave(x, cat, id, inserts, run, d.primary.term);
    InsertsLeave(Cells(x, cat, id, inserts[..m]), cat, id, inserts, run, d.primary.term);
    if LastInsert(inserts[..m], id).Some? { PrefixInsertsLess(inserts, m, id); }
    hide Inserts, InsertsOf, LastInsert, Cells;
  }

  /** All done. */
  lemma AllRedo(cell: Cell, cat: Catalog, id: TermId, d: Decision, locked: bool, run: RunId)
    ensures Redoable(cell, Cells(cell, cat, id, RowWrites(cat, d, locked, run)), cat, id, d, locked, run)
  {
    var inserts, x := Inserts(d, locked, run), DemoteCell(cell, cat, id, d, locked);
    RowWritesParts(cat, d, locked, run);
    AllCells(cell, cat, id, d, locked, run);
    var y := Cells(x, cat, id, inserts);
    InsertsLeave(x, cat, id, inserts, run, d.primary.term);
    InsertsLeave(RetireCell(y, cat, id, d, run), cat, id, inserts, run, d.primary.term);
    hide Inserts, InsertsOf, LastInsert, Cells, RowWrites;
  }

  /** Whatever prefix of the statements has run, running all of them gives what one run gives. */
  lemma StatementsRedo(cell: Cell, cat: Catalog, id: TermId, d: Decision, locked: bool, run: RunId, m: nat)
    requires m <= |RowWrites(cat, d, locked, run)|
    ensures var ws := RowWrites(cat, d, locked, run);
      Cells(Cells(cell, cat, id, ws[..m]), cat, id, ws) == Cells(cell, cat, id, ws)
  {
    var ws, demotes, inserts := RowWrites(cat, d, locked, run), Demotes(d, locked), Inserts(d, locked, run);
    RowWritesParts(cat, d, locked, run);
    AllCells(cell, cat, id, d, locked, run);
    var done := Cells(cell, cat, id, ws[..m]);
    AllCells(done, cat, id, d, locked, run);
    assert |Retires(cat, d, run)| == 1 && |demotes| <= 1;
    if m == 0 {
      assert ws[..0] == [];
    } else if m == |ws| {
      assert ws[..m] == ws;
      AllRedo(cell, cat, id, d, locked, run);
    } else {
      var k := m - |demotes|;
      assert ws[..m] == demotes + inserts[..k];
      hide RowWrites, Inserts, Demotes;
      CellsAppend(cell, cat, id, demotes, inserts[..k]);
      DemotesCell(cell, cat, id, d, locked);
      InsertsRedo(cell, cat, id, d, locked, run, k);
    }
  }

  // ---------- the lock ----------

  predicate LockCell(cell: Cell, cat: Catalog, id: TermId) { cell.Some? && Locks(id, cell.value, cat) }

  predicate OfFinalisation(w: Write, locked: bool) {
    w.WriteRow? && match w.rowWrite
      case DemoteOthers(_) => !locked
      case InsertRow(_, row) => row.source.Auto?
      case Retire(_, _) => true
  }

  lemma {:induction false} LockCellKept(cell: Cell, cat: Catalog, id: TermId, ws: seq<Write>, locked: bool)
    requires forall i :: 0 <= i < |ws| ==> OfFinalisation(ws[i], locked)
    requires !locked ==> !LockCell(cell, cat, id)
    ensures LockCell(Cells(cell, cat, id, ws), cat, id) <==> LockCell(cell, cat, id)
    decreases |ws|
  {
    if ws != [] {
      assert OfFinalisation(ws[0], locked);
      assert forall i :: 0 <= i < |ws[1..]| ==> ws[1..][i] == ws[i + 1];
      LockCellKept(CellAfter(cell, cat, id, ws[0].rowWrite), cat, id, ws[1..], locked);
    }
  }

  lemma RowWritesAreOfFinalisation(cat: Catalog, d: Decision, locked: bool, run: RunId)
    ensures forall i :: 0 <= i < |RowWrites(cat, d, locked, run)| ==> OfFinalisation(RowWrites(cat, d, locked, run)[i], locked)
  {
  }

  /** The human lock reads the same after any prefix of the statements. */
  lemma LockKept(j: Judge, w: World, d: Decision, run: RunId, m: nat)
    requires m <= |RowWrites(j.catalog, d, ManualLock(w.rows, j.catalog), run)|
    ensures var ws := RowWrites(j.catalog, d, ManualLock(w.rows, j.catalog), run)[..m];
      ManualLock(PerformAll(j, w, ws).rows, j.catalog) == ManualLock(w.rows, j.catalog)
  {
    var locked := ManualLock(w.rows, j.catalog);
    var ws := RowWrites(j.catalog, d, locked, run)[..m];
    RowWritesAreOfFinalisation(j.catalog, d, locked, run);
    var after := PerformAll(j, w, ws).rows;
    hide RowWrites, PerformAll;
    forall id ensures LockCell(CellOf(after, id), j.catalog, id) <==> LockCell(CellOf(w.rows, id), j.catalog, id) {
      StatementsActByCell(j, w, ws, id);
      assert !locked ==> !LockCell(CellOf(w.rows, id), j.catalog, id);
      LockCellKept(CellOf(w.rows, id), j.catalog, id, ws, locked);
    }
    if locked {
      var id :| id in w.rows && Locks(id, w.rows[id], j.catalog);
      assert LockCell(CellOf(after, id), j.catalog, id);
    } else {
      forall id | id in after ensures !Locks(id, after[id], j.catalog) { assert !LockCell(CellOf(after, id), j.catalog, id); }
    }
  }

  /** Table by table: repeating the statements after a prefix of them changes nothing. */
  lemma RowsRedo(j: Judge, w: World, d: Decision, run: RunId, m: nat)
    requires m <= |RowWrites(j.catalog, d, ManualLock(w.rows, j.catalog), run)|
    ensures var ws := RowWrites(j.catalog, d, ManualLock(w.rows, j.catalog), run);
      PerformAll(j, PerformAll(j, w, ws[..m]), ws).rows == PerformAll(j, w, ws).rows
  {
    var locked := ManualLock(w.rows, j.catalog);
    var ws := RowWrites(j.catalog, d, locked, run);
    var once, twice := PerformAll(j, w, ws), PerformAll(j, PerformAll(j, w, ws[..m]), ws);
    hide RowWrites, PerformAll, Cells, ManualLock;
    forall id ensures CellOf(twice.rows, id) == CellOf(once.rows, id) {
      StatementsActByCell(j, w, ws, id);
      StatementsActByCell(j, w, ws[..m], id);
      StatementsActByCell(j, PerformAll(j, w, ws[..m]), ws, id);
      StatementsRedo(CellOf(w.rows, id), j.catalog, id, d, locked, run, m);
    }
    assert forall id :: id in twice.rows <==> CellOf(twice.rows, id).Some?;
    assert forall id :: id in once.rows <==> CellOf(once.rows, id).Some?;
    forall id | id in twice.rows ensures id in once.rows && twice.rows[id] == once.rows[id] {
      assert CellOf(twice.rows, id) == CellOf(once.rows, id);
    }
  }
}

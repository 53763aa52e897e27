/** What becomes of a verification that a person writes between the statements of a finalisation. */
module LateVerification {
  import opened Prelude
  import opened Assignments
  import opened BatchItems
  import opened BatchRows
  import opened BatchRecovery

  /** The finalisation's next statement, or a row written by a person. */
  datatype Turn = Next | Verify(id: TermId, row: Row)

  function Interleaved(rows: Rows, cat: Catalog, ws: seq<Write>, turns: seq<Turn>): Rows
    decreases |turns|
  {
    if turns == [] then rows
    else match turns[0]
      case Verify(id, row) => Interleaved(rows[id := row], cat, ws, turns[1..])
      case Next =>
        if ws == [] then Interleaved(rows, cat, ws, turns[1..])
        else Interleaved(if ws[0].WriteRow? then ApplyRow(rows, cat, ws[0].rowWrite) else rows, cat, ws[1..], turns[1..])
  }

  function Nexts(turns: seq<Turn>): nat {
    if turns == [] then 0 else (if turns[0].Next? then 1 else 0) + Nexts(turns[1..])
  }

  /** The statements that are left. */
  function Left(ws: seq<Write>, turns: seq<Turn>): seq<Write> { if Nexts(turns) <= |ws| then ws[Nexts(turns)..] else [] }

  predicate Spares(turns: seq<Turn>, id: TermId) { forall i :: 0 <= i < |turns| && turns[i].Verify? ==> turns[i].id != id }

  lemma {:induction false} TurnsJoin(rows: Rows, cat: Catalog, ws: seq<Write>, a: seq<Turn>, b: seq<Turn>)
    ensures Interleaved(rows, cat, ws, a + b) == Interleaved(Interleaved(rows, cat, ws, a), cat, Left(ws, a), b)
    decreases |a|
  {
    if a == [] {
      assert a + b == b && Left(ws, a) == ws;
    } else {
      assert (a + b)[1..] == a[1..] + b && (a + b)[0] == a[0];
      var rows', ws' := rows, ws;
      if a[0].Verify? {
        rows' := rows[a[0].id := a[0].row];
      } else if ws != [] {
        rows', ws' := if ws[0].WriteRow? then ApplyRow(rows, cat, ws[0].rowWrite) else rows, ws[1..];
      }
      assert Left(ws', a[1..]) == Left(ws, a);
      hide ApplyRow, Left, Nexts;
      TurnsJoin(rows', cat, ws', a[1..], b);
    }
  }

  /** The row of a term that nobody writes goes through the statements alone. */
  lemma {:induction false} TurnsActByCell(rows: Rows, cat: Catalog, ws: seq<Write>, turns: seq<Turn>, id: TermId)
    requires Spares(turns, id) && Nexts(turns) == |ws|
    ensures CellOf(Interleaved(rows, cat, ws, turns), id) == Cells(CellOf(rows, id), cat, id, ws)
    decreases |turns|
  {
    if turns != [] {
      assert forall i :: 0 <= i < |turns[1..]| ==> turns[1..][i] == turns[i + 1];
      if turns[0].Verify? {
        TurnsActByCell(rows[turns[0].id := turns[0].row], cat, ws, turns[1..], id);
      } else {
        if ws[0].WriteRow? { StatementActsByCell(rows, cat, ws[0].rowWrite, id); }
        hide ApplyRow, CellAfter;
        TurnsActByCell(if ws[0].WriteRow? then ApplyRow(rows, cat, ws[0].rowWrite) else rows, cat, ws[1..], turns[1..], id);
      }
    }
  }

  // ---------- a person's row among the statements ----------

  predicate Stays(cell: Cell, row: Row) { cell.Some? && SameButTime(cell.value, row) }

  /** Inserts and the retirement leave a manual row as it is. */
  lemma {:induction false} MildStatementsKeep(cell: Cell, cat: Catalog, id: TermId, ws: seq<Write>)
    requires cell.Some? && cell.value.source.Manual?
    requires forall i :: 0 <= i < |ws| ==> OfFinalisation(ws[i], true)
    ensures Stays(Cells(cell, cat, id, ws), cell.value)
    decreases |ws|
  {
    if ws != [] {
      assert OfFinalisation(ws[0], true);
      assert forall i :: 0 <= i < |ws[1..]| ==> ws[1..][i] == ws[i + 1];
      MildStatementsKeep(CellAfter(cell, cat, id, ws[0].rowWrite), cat, id, ws[1..]);
    }
  }

  /** After its first statement, and with a lock before it too, a finalisation only inserts and retires. */
  lemma LaterStatementsAreMild(cat: Catalog, d: Decision, locked: bool, run: RunId, n: nat)
    requires n <= |RowWrites(cat, d, locked, run)| && (locked || n > 0)
    ensures forall i :: 0 <= i < |RowWrites(cat, d, locked, run)[n..]| ==> OfFinalisation(RowWrites(cat, d, locked, run)[n..][i], true)
  {
  }

  lemma VerifiedCell(cat: Catalog, d: Decision, locked: bool, run: RunId, id: TermId, row: Row, n: nat)
    requires Locks(id, row, cat) && n <= |RowWrites(cat, d, locked, run)|
    ensures Stays(Cells(Some(row), cat, id, RowWrites(cat, d, locked, run)[n..]), row) <==> locked || n > 0 || id == d.primary.term
  {
    var ws := RowWrites(cat, d, locked, run);
    if locked || n > 0 {
      LaterStatementsAreMild(cat, d, locked, run, n);
      hide RowWrites;
      MildStatementsKeep(Some(row), cat, id, ws[n..]);
    } else {
      LaterStatementsAreMild(cat, d, locked, run, 1);
      assert ws[0..] == ws && ws[0] == WriteRow(DemoteOthers(d.primary.term));
      hide RowWrites;
      MildStatementsKeep(CellAfter(Some(row), cat, id, ws[0].rowWrite), cat, id, ws[1..]);
    }
  }

  /**
   A verification that a person writes at any moment of a finalisation, between any two statements
   and among any other rows written by people, stays exactly if the finalisation saw a lock, or its
   first statement had run, or it is on the chosen term.  Else it is demoted.
   */
  lemma VerificationStaysExactly(
    rows: Rows, cat: Catalog, d: Decision, locked: bool, run: RunId, before: seq<Turn>, id: TermId, row: Row, after: seq<Turn>)
    requires Locks(id, row, cat) && Spares(after, id)
    requires Nexts(before) + Nexts(after) == |RowWrites(cat, d, locked, run)|
    ensures var final := Interleaved(rows, cat, RowWrites(cat, d, locked, run), before + [Verify(id, row)] + after);
      Stays(CellOf(final, id), row) <==> locked || Nexts(before) > 0 || id == d.primary.term
  {
    var ws := RowWrites(cat, d, locked, run);
    var met := Interleaved(rows, cat, ws, before);
    hide RowWrites, Locks, ApplyRow, Spares;
    TurnsJoin(rows, cat, ws, before, [Verify(id, row)] + after);
    assert before + ([Verify(id, row)] + after) == before + [Verify(id, row)] + after;
    assert ([Verify(id, row)] + after)[1..] == after && ([Verify(id, row)] + after)[0] == Verify(id, row);
    TurnsActByCell(met[id := row], cat, Left(ws, before), after, id);
    VerifiedCell(cat, d, locked, run, id, row, Nexts(before));
  }

  /**
   One that arrives between the demotion and what follows, on another term than the chosen one,
   leaves the tool with two primaries.
   */
  lemma LateVerificationLeavesTwo(j: Judge, w: World, d: Decision, run: RunId, id: TermId, row: Row, after: seq<Turn>)
    requires Sound(d, j.catalog) && d.run == Some(run) && !ManualLock(w.rows, j.catalog)
    requires !ManualNonPrimary(w.rows, d.primary.term)
    requires Locks(id, row, j.catalog) && id != d.primary.term && Spares(after, id) && Spares(after, d.primary.term)
    requires Nexts(after) + 1 == |RowWrites(j.catalog, d, false, run)|
    ensures !OnePrimary(Interleaved(w.rows, j.catalog, RowWrites(j.catalog, d, false, run), [Next, Verify(id, row)] + after), j.catalog)
  {
    var ws, chosen := RowWrites(j.catalog, d, false, run), d.primary.term;
    var turns := [Next, Verify(id, row)] + after;
    var final := Interleaved(w.rows, j.catalog, ws, turns);
    assert turns == [Next] + [Verify(id, row)] + after && Nexts([Next]) == 1;
    VerificationStaysExactly(w.rows, j.catalog, d, false, run, [Next], id, row, after);
    NextsJoin([Next, Verify(id, row)], after);
    assert Nexts([Next, Verify(id, row)]) == 1 by { assert [Next, Verify(id, row)][1..] == [Verify(id, row)]; }
    assert Spares(turns, chosen);
    hide RowWrites, ApplyRow, Spares, Sound, Interleaved, Cells, ManualLock;
    TurnsActByCell(w.rows, j.catalog, ws, turns, chosen);
    StatementsActByCell(j, w, ws, chosen);
    RowWritesFinalise(j, w, d, false, run);
    ChosenLeafIsPrimary(w.rows, j.catalog, d, NOW);
    assert CellOf(final, chosen) == CellOf(Finalised(w.rows, j.catalog, d, false, NOW), chosen);
    hide Finalised;
    assert chosen in final && final[chosen].primary && id in final && final[id].primary;
    assert chosen in j.catalog.primaries && id in j.catalog.primaries;
  }

  lemma {:induction false} NextsJoin(a: seq<Turn>, b: seq<Turn>)
    ensures Nexts(a + b) == Nexts(a) + Nexts(b)
  {
    if a == [] {
      assert a + b == b;
    } else {
      assert (a + b)[1..] == a[1..] + b;
      NextsJoin(a[1..], b);
    }
  }
}

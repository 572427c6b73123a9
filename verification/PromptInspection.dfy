/**
 What a compiled prompt tells about its input: one row per candidate, ranges that
 slice the text, and a pair of modules whose order shows in the output.
*/
module PromptInspection {
  import opened Basics
  import opened StableSort
  import opened PromptModules
  import opened PromptSelect
  import opened PromptRender

  // ------------------------------------------------------ one row per candidate

  /** How many rows report segment `s` of module `m`. */
  function RowCount(rows: seq<Row>, m: nat, s: nat): nat {
    if rows == [] then 0
    else RowCount(rows[..|rows| - 1], m, s) + if rows[|rows| - 1].moduleId == m && rows[|rows| - 1].segmentId == s then 1 else 0
  }

  /** How many candidates carry segment `s` of module `m`. */
  function InputCount(cs: seq<Candidate>, m: nat, s: nat): nat {
    if cs == [] then 0
    else InputCount(cs[..|cs| - 1], m, s) + if cs[|cs| - 1].moduleId == m && cs[|cs| - 1].segment.id == s then 1 else 0
  }

  lemma {:induction false} RowCountAppend(a: seq<Row>, b: seq<Row>, m: nat, s: nat)
    ensures RowCount(a + b, m, s) == RowCount(a, m, s) + RowCount(b, m, s)
    decreases |b|
  {
    if b == [] {
      assert a + b == a;
    } else {
      assert (a + b)[..|a + b| - 1] == a + b[..|b| - 1];
      RowCountAppend(a, b[..|b| - 1], m, s);
    }
  }

  lemma OneRow(r: Row, m: nat, s: nat)
    ensures RowCount([r], m, s) == if r.moduleId == m && r.segmentId == s then 1 else 0
  {
    assert [r][..0] == [];
  }

  lemma InputCountSnoc(cs: seq<Candidate>, c: Candidate, m: nat, s: nat)
    ensures InputCount(cs + [c], m, s) == InputCount(cs, m, s) + if c.moduleId == m && c.segment.id == s then 1 else 0
  {
    assert (cs + [c])[..|cs|] == cs;
  }

  lemma {:induction false} InsertCounts(rows: seq<Row>, r: Row, m: nat, s: nat)
    ensures RowCount(Insert(rows, r, RowLeq), m, s) == RowCount(rows, m, s) + RowCount([r], m, s)
  {
    if rows == [] || RowLeq(rows[|rows| - 1], r) {
      RowCountAppend(rows, [r], m, s);
    } else {
      var front, last := rows[..|rows| - 1], rows[|rows| - 1];
      InsertCounts(front, r, m, s);
      RowCountAppend(Insert(front, r, RowLeq), [last], m, s);
      OneRow(last, m, s);
    }
  }

  lemma {:induction false} SortCounts(rows: seq<Row>, m: nat, s: nat)
    ensures RowCount(Sort(rows, RowLeq), m, s) == RowCount(rows, m, s)
  {
    if rows != [] {
      var front, last := rows[..|rows| - 1], rows[|rows| - 1];
      SortCounts(front, m, s);
      InsertCounts(Sort(front, RowLeq), last, m, s);
      OneRow(last, m, s);
    }
  }

  lemma {:induction false} SelectionCounts(cs: seq<Candidate>, n: nat, m: nat, s: nat)
    requires n <= |cs| && FirstBad(cs, n).None?
    ensures RowCount(DroppedRows(cs, n), m, s) + InputCount(Selected(cs, n), m, s) == InputCount(cs[..n], m, s)
  {
    if n > 0 {
      hide RowCount, InputCount, Selected, DroppedRows;
      var c := cs[n - 1];
      SelectionCounts(cs, n - 1, m, s);
      OneMore(cs, n - 1);
      assert cs[..n] == cs[..n - 1] + [c];
      InputCountSnoc(cs[..n - 1], c, m, s);
      if FateOf(cs, n - 1).Kept? {
        InputCountSnoc(Selected(cs, n - 1), c, m, s);
        assert DroppedRows(cs, n - 1) + [] == DroppedRows(cs, n - 1);
      } else {
        var r := RowOf(c, if FateOf(cs, n - 1).Repeats? then Duplicate else ConflictShadowed);
        RowCountAppend(DroppedRows(cs, n - 1), [r], m, s);
        OneRow(r, m, s);
        assert Selected(cs, n - 1) + [] == Selected(cs, n - 1);
      }
    } else {
      assert cs[..0] == [];
    }
  }

  lemma {:induction false} RenderCounts(kept: seq<Candidate>, ps: seq<Piece>, m: nat, s: nat)
    requires |ps| <= |kept|
    ensures RowCount(RenderRows(kept, ps), m, s) == InputCount(kept[..|ps|], m, s)
    decreases |ps|
  {
    if ps != [] {
      hide RowCount, InputCount;
      var n := |ps| - 1;
      RenderCounts(kept, ps[..n], m, s);
      var r := RowFor(kept[n], ps[n], NextStart(ps[..n]));
      RowCountAppend(RenderRows(kept, ps[..n]), [r], m, s);
      OneRow(r, m, s);
      assert kept[..n + 1] == kept[..n] + [kept[n]];
      InputCountSnoc(kept[..n], kept[n], m, s);
    } else {
      assert kept[..0] == [];
    }
  }

  lemma {:induction false} InsertInputs(cs: seq<Candidate>, c: Candidate, m: nat, s: nat)
    ensures InputCount(Insert(cs, c, Precedes), m, s) == InputCount(cs + [c], m, s)
  {
    InputCountSnoc(cs, c, m, s);
    if cs != [] && !Precedes(cs[|cs| - 1], c) {
      var front, last := cs[..|cs| - 1], cs[|cs| - 1];
      InsertInputs(front, c, m, s);
      InputCountSnoc(front, c, m, s);
      InputCountSnoc(Insert(front, c, Precedes), last, m, s);
    }
  }

  lemma {:induction false} SortInputs(cs: seq<Candidate>, m: nat, s: nat)
    ensures InputCount(Sort(cs, Precedes), m, s) == InputCount(cs, m, s)
  {
    if cs != [] {
      var front, last := cs[..|cs| - 1], cs[|cs| - 1];
      SortInputs(front, m, s);
      InsertInputs(Sort(front, Precedes), last, m, s);
      InputCountSnoc(Sort(front, Precedes), last, m, s);
    }
  }

  /** Selection and rendering together report every segment of the given modules as often as it was given. */
  lemma OneRowPerCandidate(ms: seq<Module>, b: Budget, m: nat, s: nat)
    requires CompileSpec(ms, b).Ok?
    ensures RowCount(CompileSpec(ms, b).prompt.rows, m, s) == InputCount(Flatten(ms), m, s)
  {
    hide RowCount, InputCount, Sort, FirstBad, Pieces;
    var cs := Ordered(ms);
    var sel := SelectSpec(cs);
    var ps := Pieces(sel.kept, |sel.kept|, b).value;
    PieceCount(sel.kept, |sel.kept|, b);
    SelectionCounts(cs, |cs|, m, s);
    RenderCounts(sel.kept, ps, m, s);
    RowCountAppend(sel.rows, RenderRows(sel.kept, ps), m, s);
    SortCounts(sel.rows + RenderRows(sel.kept, ps), m, s);
    SortInputs(Flatten(ms), m, s);
    assert cs[..|cs|] == cs && sel.kept[..|ps|] == sel.kept;
  }

  // ------------------------------------------------- the row each candidate gets

  lemma {:induction false} SelectedGrows(cs: seq<Candidate>, i: nat, n: nat)
    requires i <= n <= |cs|
    ensures Selected(cs, i) <= Selected(cs, n)
  {
    if i < n {
      SelectedGrows(cs, i, n - 1);
    }
  }

  lemma KeptPlace(cs: seq<Candidate>, i: nat, n: nat)
    requires i < n <= |cs| && FateOf(cs, i).Kept?
    ensures |Selected(cs, i)| < |Selected(cs, n)| && Selected(cs, n)[|Selected(cs, i)|] == cs[i]
  {
    hide Selected;
    OneMore(cs, i);
    SelectedGrows(cs, i + 1, n);
  }

  /** Repeated and shadowed candidates say so; a kept one reports what rendering made of its piece. */
  function FateRow(cs: seq<Candidate>, ps: seq<Piece>, i: nat): Row
    requires i < |cs| && |ps| == |Selected(cs, |cs|)| && !Bad(FateOf(cs, i))
  {
    match FateOf(cs, i)
    case Repeats(_) => RowOf(cs[i], Duplicate)
    case Yields(_) => RowOf(cs[i], ConflictShadowed)
    case Kept =>
      KeptPlace(cs, i, |cs|);
      var k := |Selected(cs, i)|;
      RowFor(cs[i], ps[k], NextStart(ps[..k]))
  }

  lemma NotBad(cs: seq<Candidate>, n: nat)
    requires n <= |cs| && FirstBad(cs, n).None?
    ensures forall i :: 0 <= i < n ==> !Bad(FateOf(cs, i))
  {
    FirstBadFacts(cs, n);
  }

  function FateRows(cs: seq<Candidate>, ps: seq<Piece>, n: nat): (rows: seq<Row>)
    requires n <= |cs| && |ps| == |Selected(cs, |cs|)| && forall i :: 0 <= i < n ==> !Bad(FateOf(cs, i))
    ensures |rows| == n
  {
    if n == 0 then [] else FateRows(cs, ps, n - 1) + [FateRow(cs, ps, n - 1)]
  }

  lemma {:induction false} FateRowAt(cs: seq<Candidate>, ps: seq<Piece>, n: nat, i: nat)
    requires i < n <= |cs| && |ps| == |Selected(cs, |cs|)| && forall i :: 0 <= i < n ==> !Bad(FateOf(cs, i))
    ensures FateRows(cs, ps, n)[i] == FateRow(cs, ps, i)
  {
    hide FateRow, FateOf, Selected, Bad;
    if i < n - 1 {
      FateRowAt(cs, ps, n - 1, i);
    }
  }

  lemma RenderRowsSnoc(kept: seq<Candidate>, ps: seq<Piece>, k: nat)
    requires k < |ps| <= |kept|
    ensures RenderRows(kept, ps[..k + 1]) == RenderRows(kept, ps[..k]) + [RowFor(kept[k], ps[k], NextStart(ps[..k]))]
  {
    assert ps[..k + 1][..k] == ps[..k];
  }

  /** The candidates before `n` that were dropped, and those kept, with the rows they get. */
  function SplitRows(cs: seq<Candidate>, ps: seq<Piece>, n: nat): multiset<Row>
    requires n <= |cs| && |Selected(cs, n)| <= |ps| <= |Selected(cs, |cs|)|
  {
    multiset(DroppedRows(cs, n)) + multiset(RenderRows(Selected(cs, |cs|), ps[..|Selected(cs, n)|]))
  }

  lemma SplitStep(cs: seq<Candidate>, ps: seq<Piece>, n: nat)
    requires n < |cs| && |ps| == |Selected(cs, |cs|)| && !Bad(FateOf(cs, n))
    ensures |Selected(cs, n)| <= |ps| && |Selected(cs, n + 1)| <= |ps|
    ensures SplitRows(cs, ps, n + 1) == SplitRows(cs, ps, n) + multiset{FateRow(cs, ps, n)}
  {
    hide Selected, DroppedRows, RenderRows, NextStart, RowFor, RowOf, FirstWith, FirstClaim, FateOf, Diagnostics, DiagnosticOf, FirstBad;
    SelectedGrows(cs, n, |cs|);
    SelectedGrows(cs, n + 1, |cs|);
    OneMore(cs, n);
    if FateOf(cs, n).Kept? {
      KeptPlace(cs, n, |cs|);
      RenderRowsSnoc(Selected(cs, |cs|), ps, |Selected(cs, n)|);
      assert DroppedRows(cs, n) + [] == DroppedRows(cs, n);
    } else {
      assert Selected(cs, n) + [] == Selected(cs, n);
    }
  }

  lemma {:induction false} FateRowsAre(cs: seq<Candidate>, ps: seq<Piece>, n: nat)
    requires n <= |cs| && |ps| == |Selected(cs, |cs|)| && forall i :: 0 <= i < n ==> !Bad(FateOf(cs, i))
    ensures |Selected(cs, n)| <= |ps| && multiset(FateRows(cs, ps, n)) == SplitRows(cs, ps, n)
  {
    hide SplitRows, Selected, FateRow, FateRows, FateOf, Bad;
    FateRowsUnfold(cs, ps, n);
    if n == 0 {
      NothingSplit(cs, ps);
    } else {
      FateRowsAre(cs, ps, n - 1);
      SplitStep(cs, ps, n - 1);
    }
  }

  lemma FateRowsUnfold(cs: seq<Candidate>, ps: seq<Piece>, n: nat)
    requires n <= |cs| && |ps| == |Selected(cs, |cs|)| && forall i :: 0 <= i < n ==> !Bad(FateOf(cs, i))
    ensures n == 0 ==> multiset(FateRows(cs, ps, n)) == multiset{}
    ensures n > 0 ==> multiset(FateRows(cs, ps, n)) == multiset(FateRows(cs, ps, n - 1)) + multiset{FateRow(cs, ps, n - 1)}
  {
    hide Selected, FateRow, FateOf, Bad;
    if n == 0 {
      assert FateRows(cs, ps, n) == [];
    } else {
      assert FateRows(cs, ps, n) == FateRows(cs, ps, n - 1) + [FateRow(cs, ps, n - 1)];
    }
  }

  lemma NothingSplit(cs: seq<Candidate>, ps: seq<Piece>)
    requires |ps| == |Selected(cs, |cs|)|
    ensures |Selected(cs, 0)| == 0 && SplitRows(cs, ps, 0) == multiset{}
  {
    assert Selected(cs, 0) == [];
    hide Selected, FateOf;
    assert ps[..0] == [];
  }

  /**
   The inspection has exactly one row for every candidate of the given modules, with
   the disposition and range its fate calls for, and no other row.
  */
  lemma RowsAreFates(ms: seq<Module>, b: Budget)
    requires CompileSpec(ms, b).Ok?
    ensures
      var cs := Ordered(ms);
      var kept := Selected(cs, |cs|);
      && multiset(cs) == multiset(Flatten(ms))
      && Pieces(kept, |kept|, b).Some? && |Pieces(kept, |kept|, b).value| == |kept|
      && (forall i :: 0 <= i < |cs| ==> !Bad(FateOf(cs, i)))
      && multiset(CompileSpec(ms, b).prompt.rows) == multiset(FateRows(cs, Pieces(kept, |kept|, b).value, |cs|))
  {
    hide Sort, FirstBad, Pieces, DroppedRows, Selected, RenderRows, Join, Shown, FirstWith, FirstClaim, Diagnostics;
    var cs := Ordered(ms);
    var sel := SelectSpec(cs);
    var ps := Pieces(sel.kept, |sel.kept|, b).value;
    SortPermutes(Flatten(ms), Precedes);
    PieceCount(sel.kept, |sel.kept|, b);
    NotBad(cs, |cs|);
    FateRowsAre(cs, ps, |cs|);
    SortPermutes(sel.rows + RenderRows(sel.kept, ps), RowLeq);
    assert ps[..|ps|] == ps;
  }

  // --------------------------------------------------------------- byte ranges

  lemma {:induction false} RowAt(kept: seq<Candidate>, ps: seq<Piece>, row: Row)
    requires |ps| <= |kept| && row in RenderRows(kept, ps)
    ensures exists i: nat :: i < |ps| && row == RowFor(kept[i], ps[i], NextStart(ps[..i]))
    decreases |ps|
  {
    var n := |ps| - 1;
    if row in RenderRows(kept, ps[..n]) {
      RowAt(kept, ps[..n], row);
      var i: nat :| i < n && row == RowFor(kept[i], ps[..n][i], NextStart(ps[..n][..i]));
      assert ps[..n][..i] == ps[..i];
    }
  }

  lemma {:induction false} DroppedHaveNoRange(cs: seq<Candidate>, n: nat, row: Row)
    requires n <= |cs| && row in DroppedRows(cs, n)
    ensures row.range.None?
  {
    if row in DroppedRows(cs, n - 1) {
      DroppedHaveNoRange(cs, n - 1, row);
    }
  }

  /** The row reports piece `p` of segment `i`, and its range cuts exactly that piece out of the text. */
  predicate Reports(row: Row, text: Bytes, kept: seq<Candidate>, i: nat, p: Piece) {
    && i < |kept| && p.Rendered? && row.segmentId == kept[i].segment.id && row.moduleId == kept[i].moduleId
    && (row.disposition.Included? <==> !p.cut) && row.range.Some?
    && row.range.value.0 + |p.bytes| == row.range.value.1 <= |text|
    && text[row.range.value.0..row.range.value.1] == p.bytes
  }

  /** Every byte range of the inspection cuts exactly its segment's rendered bytes out of the text. */
  lemma RangesSliceText(ms: seq<Module>, b: Budget, row: Row)
    requires CompileSpec(ms, b).Ok? && row in CompileSpec(ms, b).prompt.rows && row.range.Some?
    ensures
      var text, cs := CompileSpec(ms, b).prompt.text, Ordered(ms);
      var kept := Selected(cs, |cs|);
      && Pieces(kept, |kept|, b).Some? && |Pieces(kept, |kept|, b).value| == |kept|
      && exists i: nat :: i < |kept| && Reports(row, text, kept, i, Pieces(kept, |kept|, b).value[i])
  {
    hide Sort, FirstBad, Pieces, Join, Shown, Selected;
    var cs := Ordered(ms);
    var sel := SelectSpec(cs);
    var ps := Pieces(sel.kept, |sel.kept|, b).value;
    PieceCount(sel.kept, |sel.kept|, b);
    SortMembers(sel.rows + RenderRows(sel.kept, ps), RowLeq);
    if row in sel.rows {
      DroppedHaveNoRange(cs, |cs|, row);
    }
    RowAt(sel.kept, ps, row);
    var i: nat :| i < |ps| && row == RowFor(sel.kept[i], ps[i], NextStart(ps[..i]));
    RangeSlicesPiece(ps, i);
    assert Reports(row, Join(Shown(ps)), sel.kept, i, ps[i]);
  }

  lemma RowLeqIsPreorder()
    ensures Preorder(RowLeq)
  {
  }

  lemma OtherRange(kept: seq<Candidate>, ps: seq<Piece>, i: nat, j: nat)
    requires i < j < |ps| <= |kept| && ps[j].Rendered?
    ensures RowFor(kept[i], ps[i], NextStart(ps[..i])) != RowFor(kept[j], ps[j], NextStart(ps[..j]))
  {
    hide NextStart;
    if ps[i].Rendered? {
      RangesIncrease(ps, i, j);
    }
  }

  lemma NotEarlier(kept: seq<Candidate>, ps: seq<Piece>, row: Row)
    requires 0 < |ps| <= |kept| && ps[|ps| - 1].Rendered? && row in RenderRows(kept, ps[..|ps| - 1])
    ensures row != RowFor(kept[|ps| - 1], ps[|ps| - 1], NextStart(ps[..|ps| - 1]))
  {
    hide NextStart, RenderRows, RowFor;
    var n := |ps| - 1;
    RowAt(kept, ps[..n], row);
    var i: nat :| i < n && row == RowFor(kept[i], ps[..n][i], NextStart(ps[..n][..i]));
    assert ps[..n][..i] == ps[..i];
    OtherRange(kept, ps, i, n);
  }

  lemma RenderRowsUnfold(kept: seq<Candidate>, ps: seq<Piece>, row: Row)
    requires 0 < |ps| <= |kept|
    ensures
      var n := |ps| - 1;
      multiset(RenderRows(kept, ps))[row] ==
      multiset(RenderRows(kept, ps[..n]))[row] + if row == RowFor(kept[n], ps[n], NextStart(ps[..n])) then 1 else 0
  {
    hide NextStart, RowFor;
  }

  lemma {:induction false} RangedOnce(kept: seq<Candidate>, ps: seq<Piece>, row: Row)
    requires |ps| <= |kept| && row.range.Some?
    ensures multiset(RenderRows(kept, ps))[row] <= 1
    decreases |ps|
  {
    if ps == [] {
      assert RenderRows(kept, ps) == [];
    } else {
      hide NextStart, RenderRows;
      var n := |ps| - 1;
      RangedOnce(kept, ps[..n], row);
      RenderRowsUnfold(kept, ps, row);
      if ps[n].Rendered? && row in RenderRows(kept, ps[..n]) {
        NotEarlier(kept, ps, row);
      }
    }
  }

  lemma DiagnosticLeqIsPreorder()
    ensures Preorder(DiagnosticLeq)
  {
  }

  /** Rows stand by range start, those without a range last, then by module and segment identity. */
  lemma RowsByFields(ms: seq<Module>, b: Budget, i: nat, j: nat)
    requires CompileSpec(ms, b).Ok? && i < j < |CompileSpec(ms, b).prompt.rows|
    ensures
      var x, y := CompileSpec(ms, b).prompt.rows[i], CompileSpec(ms, b).prompt.rows[j];
      && (x.range.Some? && y.range.Some? ==> x.range.value.0 <= y.range.value.0)
      && (x.range.None? && y.range.Some? ==> y.range.value.0 >= USIZE_MAX)
      && (x.range.None? && y.range.None? ==> x.moduleId <= y.moduleId)
      && (x.range.None? && y.range.None? && x.moduleId == y.moduleId ==> x.segmentId <= y.segmentId)
  {
    hide Sort, FirstBad, Pieces, DroppedRows, Selected, RenderRows, Join, Shown, FirstWith, FirstClaim, Diagnostics;
    var cs := Ordered(ms);
    var sel := SelectSpec(cs);
    var ps := Pieces(sel.kept, |sel.kept|, b).value;
    RowLeqIsPreorder();
    SortIsStable(sel.rows + RenderRows(sel.kept, ps), RowLeq);
    assert RowLeq(CompileSpec(ms, b).prompt.rows[i], CompileSpec(ms, b).prompt.rows[j]);
  }

  /** Diagnostics stand by segment identity, then duplicates, shadows, protected conflicts, omissions and truncations. */
  lemma DiagnosticsByFields(ms: seq<Module>, b: Budget, i: nat, j: nat)
    requires CompileSpec(ms, b).Ok? && i < j < |CompileSpec(ms, b).prompt.diagnostics|
    ensures
      var x, y := CompileSpec(ms, b).prompt.diagnostics[i], CompileSpec(ms, b).prompt.diagnostics[j];
      && x.segmentId <= y.segmentId
      && (x.segmentId == y.segmentId ==>
            match x.code
            case ExactDuplicate => true
            case Shadow => !y.code.ExactDuplicate?
            case ProtectedConflict => !y.code.ExactDuplicate? && !y.code.Shadow?
            case BudgetOmission => y.code.BudgetOmission? || y.code.BudgetTruncation?
            case BudgetTruncation => y.code.BudgetTruncation?)
  {
    hide Sort, FirstBad, Pieces, DroppedRows, Selected, RenderRows, RenderDiagnostics, Join, Shown, FirstWith, FirstClaim, Diagnostics;
    var cs := Ordered(ms);
    var sel := SelectSpec(cs);
    var ps := Pieces(sel.kept, |sel.kept|, b).value;
    DiagnosticLeqIsPreorder();
    SortIsStable(sel.diagnostics + RenderDiagnostics(sel.kept, ps), DiagnosticLeq);
    assert DiagnosticLeq(CompileSpec(ms, b).prompt.diagnostics[i], CompileSpec(ms, b).prompt.diagnostics[j]);
  }

  /** Where the sorted inspection rows come from, for rows with a range. */
  lemma RangedRows(ms: seq<Module>, b: Budget, row: Row)
    requires CompileSpec(ms, b).Ok? && row.range.Some?
    ensures Sorted(CompileSpec(ms, b).prompt.rows, RowLeq) && multiset(CompileSpec(ms, b).prompt.rows)[row] <= 1
    ensures
      var cs := Ordered(ms);
      var kept := Selected(cs, |cs|);
      && Pieces(kept, |kept|, b).Some? && |Pieces(kept, |kept|, b).value| == |kept|
      && (row in CompileSpec(ms, b).prompt.rows ==> row in RenderRows(kept, Pieces(kept, |kept|, b).value))
  {
    hide Sort, FirstBad, Pieces, DroppedRows, Selected, RenderRows, Join, Shown, FirstWith, FirstClaim, Diagnostics, RowLeq;
    var cs := Ordered(ms);
    var sel := SelectSpec(cs);
    var ps := Pieces(sel.kept, |sel.kept|, b).value;
    PieceCount(sel.kept, |sel.kept|, b);
    RowLeqIsPreorder();
    SortIsStable(sel.rows + RenderRows(sel.kept, ps), RowLeq);
    SortPermutes(sel.rows + RenderRows(sel.kept, ps), RowLeq);
    RangedOnce(sel.kept, ps, row);
    if row in sel.rows {
      DroppedHaveNoRange(cs, |cs|, row);
    }
    var rows := CompileSpec(ms, b).prompt.rows;
    assert multiset(rows) == multiset(sel.rows) + multiset(RenderRows(sel.kept, ps));
    assert row in rows <==> row in multiset(rows);
  }

  lemma TwiceInMultiset<T>(s: seq<T>, i: nat, j: nat)
    requires i < j < |s| && s[i] == s[j]
    ensures multiset(s)[s[i]] >= 2
  {
    assert s == s[..i] + [s[i]] + s[i + 1..j] + [s[j]] + s[j + 1..];
  }

  /** Down the inspection the byte ranges are disjoint and increasing, with a separator between them. */
  lemma RowRangesIncrease(ms: seq<Module>, b: Budget, i: nat, j: nat)
    requires CompileSpec(ms, b).Ok? && i < j < |CompileSpec(ms, b).prompt.rows|
    requires CompileSpec(ms, b).prompt.rows[i].range.Some? && CompileSpec(ms, b).prompt.rows[j].range.Some?
    ensures
      var rows := CompileSpec(ms, b).prompt.rows;
      rows[i].range.value.1 + |SEPARATOR| <= rows[j].range.value.0
  {
    var rows := CompileSpec(ms, b).prompt.rows;
    RangedRows(ms, b, rows[i]);
    RangedRows(ms, b, rows[j]);
    var cs := Ordered(ms);
    var kept := Selected(cs, |cs|);
    var ps := Pieces(kept, |kept|, b).value;
    assert RowLeq(rows[i], rows[j]);
    hide CompileSpec, Ordered, Selected, Pieces, RenderRows, Sorted;
    if rows[i] == rows[j] {
      TwiceInMultiset(rows, i, j);
      assert false;
    }
    RangesApart(kept, ps, rows[i], rows[j]);
  }

  lemma RangesApart(kept: seq<Candidate>, ps: seq<Piece>, x: Row, y: Row)
    requires |ps| <= |kept| && x in RenderRows(kept, ps) && y in RenderRows(kept, ps) && x != y
    requires x.range.Some? && y.range.Some? && RowLeq(x, y)
    ensures x.range.value.1 + |SEPARATOR| <= y.range.value.0
  {
    hide NextStart, RenderRows;
    RowAt(kept, ps, x);
    RowAt(kept, ps, y);
    var p: nat :| p < |ps| && x == RowFor(kept[p], ps[p], NextStart(ps[..p]));
    var q: nat :| q < |ps| && y == RowFor(kept[q], ps[q], NextStart(ps[..q]));
    if p < q {
      RangesIncrease(ps, p, q);
    } else if q < p {
      RangesIncrease(ps, q, p);
    }
  }

  /** Rows of kept candidates follow the candidate order: earlier ones have earlier byte ranges. */
  lemma FateRangesIncrease(cs: seq<Candidate>, ps: seq<Piece>, i: nat, j: nat)
    requires i < j < |cs| && |ps| == |Selected(cs, |cs|)| && FateOf(cs, i).Kept? && FateOf(cs, j).Kept?
    requires FateRow(cs, ps, i).range.Some? && FateRow(cs, ps, j).range.Some?
    ensures FateRow(cs, ps, i).range.value.1 + |SEPARATOR| <= FateRow(cs, ps, j).range.value.0
  {
    hide Selected, NextStart, FateOf;
    KeptPlace(cs, i, |cs|);
    KeptPlace(cs, j, |cs|);
    KeptPlace(cs, i, j);
    RangesIncrease(ps, |Selected(cs, i)|, |Selected(cs, j)|);
  }

  /** In the text, the rendered segments of one module appear in their source order. */
  lemma SegmentsInSourceOrder(ms: seq<Module>, b: Budget, i: nat, j: nat)
    requires CompileSpec(ms, b).Ok? && i < |Ordered(ms)| && j < |Ordered(ms)|
    requires
      var x, y := Ordered(ms)[i], Ordered(ms)[j];
      x.authority == y.authority && x.priority == y.priority && x.moduleId == y.moduleId && x.order < y.order
    requires FateOf(Ordered(ms), i).Kept? && FateOf(Ordered(ms), j).Kept?
    ensures
      var cs := Ordered(ms);
      var kept := Selected(cs, |cs|);
      && Pieces(kept, |kept|, b).Some? && |Pieces(kept, |kept|, b).value| == |kept|
      && var ps := Pieces(kept, |kept|, b).value;
      var first, second := FateRow(cs, ps, i), FateRow(cs, ps, j);
      && first in CompileSpec(ms, b).prompt.rows && second in CompileSpec(ms, b).prompt.rows
      && (first.range.Some? && second.range.Some? ==> first.range.value.1 + |SEPARATOR| <= second.range.value.0)
  {
    hide CompileSpec, Sort, Flatten, FateRow, FateOf, Selected, Pieces, FateRows;
    var cs := Ordered(ms);
    RowsAreFates(ms, b);
    var ps := Pieces(Selected(cs, |cs|), |Selected(cs, |cs|)|, b).value;
    SourceOrderKept(ms, i, j);
    FateRowAt(cs, ps, |cs|, i);
    FateRowAt(cs, ps, |cs|, j);
    var rows := FateRows(cs, ps, |cs|);
    assert rows[i] in multiset(rows) && rows[j] in multiset(rows);
    if FateRow(cs, ps, i).range.Some? && FateRow(cs, ps, j).range.Some? {
      FateRangesIncrease(cs, ps, i, j);
    }
  }

  // ---------------------------------------------------- when the order does show

  const LETTER_A := Module(0, 0, 0, [Segment(1, [65], Omit, None, 0)])
  const LETTER_B := Module(0, 0, 0, [Segment(2, [66], Omit, None, 0)])

  lemma TwoCandidates(m: Module, n: Module)
    requires |m.segments| == 1 && |n.segments| == 1 && SameRank(m, n)
    ensures
      Ordered([m, n]) == [Candidate(m.id, m.authority, m.priority, 0, m.segments[0]),
                          Candidate(n.id, n.authority, n.priority, 0, n.segments[0])]
  {
    var a := Candidate(m.id, m.authority, m.priority, 0, m.segments[0]);
    var c := Candidate(n.id, n.authority, n.priority, 0, n.segments[0]);
    hide Sort, Insert, Flatten, Candidates;
    FlattenOne([], m, a);
    FlattenOne([m], n, c);
    SortTwo(a, c);
    assert [m] + [n] == [m, n];
    assert Flatten([m, n]) == [a, c];
  }

  lemma FlattenOne(ms: seq<Module>, m: Module, c: Candidate)
    requires |m.segments| == 1 && c == Candidate(m.id, m.authority, m.priority, 0, m.segments[0])
    ensures Flatten(ms + [m]) == Flatten(ms) + [c] && Flatten([]) == []
    ensures [] + [m] == [m]
  {
    assert (ms + [m])[..|ms|] == ms;
    assert Candidates(m, 0) == [] && Candidates(m, 1) == [c];
  }

  lemma SortTwo(a: Candidate, c: Candidate)
    requires Precedes(a, c)
    ensures Sort([a, c], Precedes) == [a, c]
    ensures [] + [a] + [c] == [a, c]
  {
    assert [a, c][..1] == [a] && [a][..0] == [];
    assert Sort([], Precedes) == [] && Insert([], a, Precedes) == [a];
    assert Sort([a], Precedes) == [a];
  }

  lemma TwoSelected(a: Candidate, c: Candidate)
    requires a.segment.id != c.segment.id && a.segment.claim.None? && c.segment.claim.None?
    ensures SelectSpec([a, c]) == Selection([a, c], [], [])
  {
    var cs := [a, c];
    assert FirstWith(cs, 0, a.segment.id).None? && FirstWith(cs, 1, c.segment.id).None?;
    assert FateOf(cs, 0).Kept? && FateOf(cs, 1).Kept?;
    OneMore(cs, 0);
    OneMore(cs, 1);
    assert Selected(cs, 0) == [] && Selected(cs, 1) == [a];
    assert Diagnostics(cs, 0) == [] && Diagnostics(cs, 1) == [] && DroppedRows(cs, 0) == [] && DroppedRows(cs, 1) == [];
    assert FirstBad(cs, 0).None? && FirstBad(cs, 1).None?;
  }

  lemma TwoPieces(a: Candidate, c: Candidate, b: Budget)
    requires |a.segment.content| == 1 && |c.segment.content| == 1 && b.maxBytes >= 4 && b.maxTokens >= 2
    ensures RenderSpec(Selection([a, c], [], []), b).Ok?
    ensures RenderSpec(Selection([a, c], [], []), b).prompt.text == a.segment.content + SEPARATOR + c.segment.content
  {
    var kept, x, y := [a, c], a.segment.content, c.segment.content;
    hide Pieces, Join, Shown;
    FirstPiece(kept, b);
    SecondPiece(kept, b);
  }

  lemma FirstPiece(kept: seq<Candidate>, b: Budget)
    requires |kept| == 2 && |kept[0].segment.content| == 1 && b.maxBytes >= 4 && b.maxTokens >= 2
    ensures
      var p := Rendered(kept[0].segment.content, false);
      Pieces(kept, 1, b) == Some([p]) && Shown([p]) == [p.bytes] && NextStart([p]) == 3
  {
    var p := Rendered(kept[0].segment.content, false);
    assert NextStart([]) == 0 && Remaining(b, 0) >= 1;
    assert Shape(kept[0].segment, Remaining(b, 0)) == Some(p);
    assert Pieces(kept, 0, b) == Some([]) && [] + [p] == [p];
    ShownSnoc([], p);
    JoinSnoc([], p.bytes);
  }

  lemma SecondPiece(kept: seq<Candidate>, b: Budget)
    requires |kept| == 2 && b.maxBytes >= 4 && b.maxTokens >= 2
    requires |kept[0].segment.content| == 1 && |kept[1].segment.content| == 1
    ensures
      var x, y := kept[0].segment.content, kept[1].segment.content;
      var ps := [Rendered(x, false), Rendered(y, false)];
      Pieces(kept, 2, b) == Some(ps) && Join(Shown(ps)) == x + SEPARATOR + y
  {
    var p, q := Rendered(kept[0].segment.content, false), Rendered(kept[1].segment.content, false);
    FirstPiece(kept, b);
    hide Shown, Join;
    assert Remaining(b, 3) >= 1;
    assert Shape(kept[1].segment, Remaining(b, 3)) == Some(q);
    assert [p] + [q] == [p, q];
    ShownSnoc([p], q);
    JoinSnoc([p.bytes], q.bytes);
    OneJoined(p.bytes);
  }

  lemma OneJoined(x: Bytes)
    ensures Join([x]) == x
  {
  }

  /** Two modules with the same authority, priority and identity: exchanging them changes the text. */
  lemma SameRankOrderShows()
    ensures
      var b := Budget(4, 2);
      && CompileSpec([LETTER_A, LETTER_B], b).Ok? && CompileSpec([LETTER_B, LETTER_A], b).Ok?
      && CompileSpec([LETTER_A, LETTER_B], b).prompt.text == [65, 10, 10, 66]
      && CompileSpec([LETTER_B, LETTER_A], b).prompt.text == [66, 10, 10, 65]
  {
    hide CompileSpec;
    TwoLetters(LETTER_A, LETTER_B);
    TwoLetters(LETTER_B, LETTER_A);
  }

  lemma TwoLetters(m: Module, n: Module)
    requires |m.segments| == 1 && |n.segments| == 1 && SameRank(m, n)
    requires m.segments[0].id != n.segments[0].id && m.segments[0].claim.None? && n.segments[0].claim.None?
    requires |m.segments[0].content| == 1 && |n.segments[0].content| == 1
    ensures
      var r := CompileSpec([m, n], Budget(4, 2));
      r.Ok? && r.prompt.text == m.segments[0].content + SEPARATOR + n.segments[0].content
  {
    hide RenderSpec, SelectSpec, Ordered;
    var a := Candidate(m.id, m.authority, m.priority, 0, m.segments[0]);
    var c := Candidate(n.id, n.authority, n.priority, 0, n.segments[0]);
    TwoCandidates(m, n);
    TwoSelected(a, c);
    TwoPieces(a, c, Budget(4, 2));
  }
}

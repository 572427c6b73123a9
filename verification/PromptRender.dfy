/**
 Rendering selected segments under a byte and a token budget, with the byte range
 of every rendered piece, and the whole compilation.
*/
module PromptRender {
  import opened Basics
  import opened StableSort
  import opened PromptModules
  import opened PromptSelect

  const MAX_COMPILE_MODULES: nat := 1024

  /** Two line feeds. */
  const SEPARATOR: Bytes := [10, 10]

  /** The ASCII bytes of "[truncated]". */
  const MARKER: Bytes := [91, 116, 114, 117, 110, 99, 97, 116, 101, 100, 93]

  datatype Budget = Budget(maxBytes: nat, maxTokens: nat)

  function Saturated(n: nat): nat {
    if n > USIZE_MAX then USIZE_MAX else n
  }

  /** Conservative token estimate of a byte count. */
  function Tokens(bytes: nat): nat {
    Saturated(bytes + 2) / 3
  }

  /** The estimate is one token for every three bytes begun. */
  lemma TokensAre(bytes: nat)
    requires bytes + 2 <= USIZE_MAX
    ensures 3 * Tokens(bytes) >= bytes && (bytes > 0 ==> 3 * (Tokens(bytes) - 1) < bytes)
  {
  }

  /** Bytes left under both limits once `used` bytes are spent. */
  function Remaining(b: Budget, used: nat): nat {
    var byBytes := if used > b.maxBytes then 0 else b.maxBytes - used;
    var byTokens := if used > Saturated(b.maxTokens * 3) then 0 else Saturated(b.maxTokens * 3) - used;
    if byBytes <= byTokens then byBytes else byTokens
  }

  // ------------------------------------------------------------------ truncation

  /** Whether a UTF-8 character starts at `i`, or the text ends there. */
  predicate CharBoundary(content: Bytes, i: nat) {
    i == 0 || i == |content| || (i < |content| && !(0x80 <= content[i] < 0xC0))
  }

  /** The longest prefix up to `limit` that ends between characters. */
  function Cut(content: Bytes, limit: nat): nat {
    if limit == 0 || CharBoundary(content, limit) then limit else Cut(content, limit - 1)
  }

  lemma {:induction false} CutFacts(content: Bytes, limit: nat)
    ensures Cut(content, limit) <= limit && CharBoundary(content, Cut(content, limit))
    ensures forall i :: Cut(content, limit) < i <= limit ==> !CharBoundary(content, i)
  {
    if limit > 0 && !CharBoundary(content, limit) {
      CutFacts(content, limit - 1);
    }
  }

  function Truncation(content: Bytes, maximum: nat): Option<Bytes> {
    if maximum < |MARKER| then None
    else
      var limit := if maximum - |MARKER| <= |content| then maximum - |MARKER| else |content|;
      CutFacts(content, limit);
      Some(content[..Cut(content, limit)] + MARKER)
  }

  method Shorten(content: Bytes, maximum: nat) returns (r: Option<Bytes>)
    ensures r == Truncation(content, maximum)
    ensures r.Some? ==> |r.value| <= maximum && |r.value| >= |MARKER|
  {
    if maximum < |MARKER| {
      return None;
    }
    var limit := maximum - |MARKER|;
    var boundary := if limit <= |content| then limit else |content|;
    ghost var start := boundary;
    while boundary > 0 && !CharBoundary(content, boundary)
      invariant 0 <= boundary <= start && Cut(content, start) == Cut(content, boundary)
    {
      boundary := boundary - 1;
    }
    r := Some(content[..boundary] + MARKER);
  }

  // --------------------------------------------------------------------- pieces

  datatype Piece = Rendered(bytes: Bytes, cut: bool) | Dropped

  /** What becomes of a segment when `remaining` bytes are left; `None` fails the compilation. */
  function Shape(s: Segment, remaining: nat): Option<Piece> {
    if |s.content| <= remaining then Some(Rendered(s.content, false))
    else
      match s.behavior
      case Required => None
      case Omit => Some(Dropped)
      case Truncate =>
        match Truncation(s.content, remaining)
        case None => Some(Dropped)
        case Some(bytes) => Some(Rendered(bytes, true))
  }

  function Shown(ps: seq<Piece>): seq<Bytes> {
    if ps == [] then []
    else Shown(ps[..|ps| - 1]) + (if ps[|ps| - 1].Rendered? then [ps[|ps| - 1].bytes] else [])
  }

  /** Pieces joined by the separator. */
  function Join(bs: seq<Bytes>): Bytes {
    if bs == [] then []
    else if |bs| == 1 then bs[0]
    else Join(bs[..|bs| - 1]) + SEPARATOR + bs[|bs| - 1]
  }

  /** Where the next piece would start. */
  function NextStart(ps: seq<Piece>): nat {
    |Join(Shown(ps))| + if Shown(ps) == [] then 0 else |SEPARATOR|
  }

  /** The pieces of the first `n` selected segments. */
  function Pieces(kept: seq<Candidate>, n: nat, b: Budget): Option<seq<Piece>>
    requires n <= |kept|
  {
    if n == 0 then Some([])
    else
      match Pieces(kept, n - 1, b)
      case None => None
      case Some(ps) =>
        match Shape(kept[n - 1].segment, Remaining(b, NextStart(ps)))
        case None => None
        case Some(p) => Some(ps + [p])
  }

  function RowFor(c: Candidate, p: Piece, start: nat): Row {
    match p
    case Dropped => RowOf(c, OmittedForBudget)
    case Rendered(bytes, cut) =>
      Row(c.moduleId, c.segment.id, c.authority, c.segment.labels, if cut then Truncated else Included,
          Some((start, start + |bytes|)), |bytes|, Tokens(|bytes|))
  }

  function RenderRows(kept: seq<Candidate>, ps: seq<Piece>): seq<Row>
    requires |ps| <= |kept|
  {
    if ps == [] then []
    else
      var n := |ps| - 1;
      RenderRows(kept, ps[..n]) + [RowFor(kept[n], ps[n], NextStart(ps[..n]))]
  }

  function RenderDiagnostics(kept: seq<Candidate>, ps: seq<Piece>): seq<Diagnostic>
    requires |ps| <= |kept|
  {
    if ps == [] then []
    else
      var n := |ps| - 1;
      RenderDiagnostics(kept, ps[..n]) +
      (match ps[n]
       case Dropped => [Diagnostic(BudgetOmission, kept[n].segment.id, None, None)]
       case Rendered(_, cut) => if cut then [Diagnostic(BudgetTruncation, kept[n].segment.id, None, None)] else [])
  }

  /** By range start, rows without a range last, then module and segment identity. */
  predicate RowLeq(a: Row, b: Row) {
    var x := if a.range.Some? then a.range.value.0 else USIZE_MAX;
    var y := if b.range.Some? then b.range.value.0 else USIZE_MAX;
    if x != y then x < y
    else if a.moduleId != b.moduleId then a.moduleId < b.moduleId
    else a.segmentId <= b.segmentId
  }

  function Rank(c: DiagnosticCode): nat {
    match c
    case ExactDuplicate => 0
    case Shadow => 1
    case ProtectedConflict => 2
    case BudgetOmission => 3
    case BudgetTruncation => 4
  }

  predicate DiagnosticLeq(a: Diagnostic, b: Diagnostic) {
    if a.segmentId != b.segmentId then a.segmentId < b.segmentId else Rank(a.code) <= Rank(b.code)
  }

  datatype Prompt = Prompt(text: Bytes, tokens: nat, diagnostics: seq<Diagnostic>, rows: seq<Row>)

  datatype Compiled = Ok(prompt: Prompt) | Err(code: ErrorCode)

  function RenderSpec(sel: Selection, b: Budget): Compiled
    requires sel.Selection?
  {
    match Pieces(sel.kept, |sel.kept|, b)
    case None => Err(BudgetExceeded)
    case Some(ps) =>
      if |ps| != |sel.kept| then Err(BudgetExceeded)
      else
        var text := Join(Shown(ps));
        if |text| > b.maxBytes || Tokens(|text|) > b.maxTokens then Err(BudgetExceeded)
        else
          Ok(Prompt(text, Tokens(|text|),
                    Sort(sel.diagnostics + RenderDiagnostics(sel.kept, ps), DiagnosticLeq),
                    Sort(sel.rows + RenderRows(sel.kept, ps), RowLeq)))
  }

  function CompileSpec(ms: seq<Module>, b: Budget): Compiled {
    if |ms| > MAX_COMPILE_MODULES then Err(BoundsExceeded)
    else
      match SelectSpec(Ordered(ms))
      case Failure(code) => Err(code)
      case Selection(kept, diagnostics, rows) => RenderSpec(Selection(kept, diagnostics, rows), b)
  }

  /** Segments are never empty. */
  predicate NonEmpty(kept: seq<Candidate>) {
    forall c <- kept :: c.segment.content != []
  }

  // -------------------------------------------------------- what rendering means

  lemma {:induction false} PieceCount(kept: seq<Candidate>, n: nat, b: Budget)
    requires n <= |kept| && Pieces(kept, n, b).Some?
    ensures |Pieces(kept, n, b).value| == n
  {
    if n > 0 {
      PieceCount(kept, n - 1, b);
    }
  }

  /** Piece `i` is the shape of segment `i` under what the pieces before it leave. */
  lemma {:induction false} PieceAt(kept: seq<Candidate>, n: nat, b: Budget, i: nat)
    requires i < n <= |kept| && Pieces(kept, n, b).Some?
    ensures |Pieces(kept, n, b).value| == n
    ensures
      var ps := Pieces(kept, n, b).value;
      Shape(kept[i].segment, Remaining(b, NextStart(ps[..i]))) == Some(ps[i])
  {
    hide Shape, Remaining, NextStart;
    PieceCount(kept, n, b);
    PieceCount(kept, n - 1, b);
    var ps, front := Pieces(kept, n, b).value, Pieces(kept, n - 1, b).value;
    assert ps[..n - 1] == front;
    if i < n - 1 {
      PieceAt(kept, n - 1, b, i);
      assert ps[..i] == front[..i];
    }
  }

  /** A rendered piece is never empty and always fits. */
  lemma ShapeFits(s: Segment, remaining: nat)
    requires s.content != [] && Shape(s, remaining).Some? && Shape(s, remaining).value.Rendered?
    ensures
      var p := Shape(s, remaining).value;
      && 0 < |p.bytes| <= remaining
      && (p.cut <==> |s.content| > remaining)
      && (!p.cut ==> p.bytes == s.content)
  {
    if |s.content| > remaining {
      var limit := if remaining - |MARKER| <= |s.content| then remaining - |MARKER| else |s.content|;
      CutFacts(s.content, limit);
    }
  }

  /** A truncated piece is the longest prefix that ends between characters and leaves room for the marker. */
  lemma TruncatedPiece(s: Segment, remaining: nat)
    requires Shape(s, remaining).Some? && Shape(s, remaining).value.Rendered? && Shape(s, remaining).value.cut
    ensures s.behavior.Truncate? && |MARKER| <= remaining
    ensures
      exists k: nat :: k <= |s.content| && Shape(s, remaining).value.bytes == s.content[..k] + MARKER
                       && CharBoundary(s.content, k) && k + |MARKER| <= remaining
                       && forall i :: k < i <= |s.content| && i + |MARKER| <= remaining ==> !CharBoundary(s.content, i)
  {
    var limit := if remaining - |MARKER| <= |s.content| then remaining - |MARKER| else |s.content|;
    CutFacts(s.content, limit);
    assert Shape(s, remaining).value.bytes == s.content[..Cut(s.content, limit)] + MARKER;
  }

  lemma ShownSnoc(ps: seq<Piece>, p: Piece)
    ensures Shown(ps + [p]) == Shown(ps) + (if p.Rendered? then [p.bytes] else [])
  {
    assert (ps + [p])[..|ps|] == ps;
  }

  lemma JoinSnoc(bs: seq<Bytes>, x: Bytes)
    ensures Join(bs + [x]) == if bs == [] then x else Join(bs) + SEPARATOR + x
  {
    assert (bs + [x])[..|bs|] == bs;
  }

  lemma NothingShown(ps: seq<Piece>)
    ensures Shown(ps) == [] ==> Join(Shown(ps)) == []
  {
  }

  /** The text after one more piece, and where that piece lies in it. */
  lemma TextStep(ps: seq<Piece>, p: Piece)
    ensures p.Dropped? ==> Join(Shown(ps + [p])) == Join(Shown(ps))
    ensures p.Rendered? ==>
              var text := Join(Shown(ps + [p]));
              && |text| == NextStart(ps) + |p.bytes| && text[NextStart(ps)..] == p.bytes
              && Join(Shown(ps)) <= text
              && text == Join(Shown(ps)) + (if Shown(ps) == [] then [] else SEPARATOR) + p.bytes
  {
    hide Join, Shown;
    ShownSnoc(ps, p);
    if p.Rendered? {
      JoinSnoc(Shown(ps), p.bytes);
      NothingShown(ps);
      var prefix := Join(Shown(ps)) + (if Shown(ps) == [] then [] else SEPARATOR);
      assert Join(Shown(ps + [p])) == prefix + p.bytes;
    } else {
      assert Shown(ps) + [] == Shown(ps);
    }
  }

  /** Both limits hold after every piece. */
  lemma {:induction false} WithinBudget(kept: seq<Candidate>, n: nat, b: Budget)
    requires n <= |kept| && Pieces(kept, n, b).Some? && NonEmpty(kept)
    ensures
      var text := Join(Shown(Pieces(kept, n, b).value));
      |text| <= b.maxBytes && |text| <= Saturated(b.maxTokens * 3)
  {
    if n > 0 {
      hide Join, Shown;
      WithinBudget(kept, n - 1, b);
      var front := Pieces(kept, n - 1, b).value;
      var remaining := Remaining(b, NextStart(front));
      var p := Shape(kept[n - 1].segment, remaining).value;
      assert Pieces(kept, n, b).value == front + [p];
      TextStep(front, p);
      if p.Rendered? {
        assert kept[n - 1] in kept;
        ShapeFits(kept[n - 1].segment, remaining);
      }
    }
  }

  /** Segment `i` is required and larger than what the pieces before it leave. */
  predicate TooBig(kept: seq<Candidate>, i: nat, b: Budget) {
    && i < |kept| && Pieces(kept, i, b).Some? && kept[i].segment.behavior.Required?
    && |kept[i].segment.content| > Remaining(b, NextStart(Pieces(kept, i, b).value))
  }

  lemma {:induction false} FailsAt(kept: seq<Candidate>, n: nat, b: Budget)
    requires n <= |kept|
    ensures Pieces(kept, n, b).None? <==> exists i: nat :: i < n && TooBig(kept, i, b)
  {
    hide NextStart, Remaining;
    if n > 0 {
      FailsAt(kept, n - 1, b);
      if Pieces(kept, n, b).None? && Pieces(kept, n - 1, b).Some? {
        assert TooBig(kept, n - 1, b);
      }
    }
  }

  /** So the last check of the source can never fail: rendering fails exactly when a required segment does not fit. */
  lemma FinalCheckIsRedundant(sel: Selection, b: Budget)
    requires sel.Selection? && NonEmpty(sel.kept)
    ensures RenderSpec(sel, b).Err? <==> Pieces(sel.kept, |sel.kept|, b).None?
    ensures RenderSpec(sel, b).Err? <==> exists i: nat :: i < |sel.kept| && TooBig(sel.kept, i, b)
  {
    FailsAt(sel.kept, |sel.kept|, b);
    if Pieces(sel.kept, |sel.kept|, b).Some? {
      PieceCount(sel.kept, |sel.kept|, b);
      WithinBudget(sel.kept, |sel.kept|, b);
    }
  }

  lemma {:induction false} TextPrefix(ps: seq<Piece>, i: nat)
    requires i <= |ps|
    ensures Join(Shown(ps[..i])) <= Join(Shown(ps))
    decreases |ps|
  {
    if i == |ps| {
      assert ps[..i] == ps;
    } else {
      var front := ps[..|ps| - 1];
      assert ps == front + [ps[|ps| - 1]] && front[..i] == ps[..i];
      TextPrefix(front, i);
      TextStep(front, ps[|ps| - 1]);
    }
  }

  /** Every rendered piece is exactly its byte range of the text. */
  lemma RangeSlicesPiece(ps: seq<Piece>, i: nat)
    requires i < |ps| && ps[i].Rendered?
    ensures
      var start, text := NextStart(ps[..i]), Join(Shown(ps));
      start + |ps[i].bytes| <= |text| && text[start..start + |ps[i].bytes|] == ps[i].bytes
  {
    hide Join, Shown;
    var upto := ps[..i + 1];
    assert upto == ps[..i] + [ps[i]];
    TextStep(ps[..i], ps[i]);
    TextPrefix(ps, i + 1);
    var t, text, start := Join(Shown(upto)), Join(Shown(ps)), NextStart(ps[..i]);
    assert text[..|t|] == t;
    assert text[start..|t|] == t[start..];
  }

  /** Ranges are disjoint and increasing, with exactly a separator between neighbours. */
  lemma RangesIncrease(ps: seq<Piece>, i: nat, j: nat)
    requires i < j < |ps| && ps[i].Rendered? && ps[j].Rendered?
    ensures NextStart(ps[..i]) + |ps[i].bytes| + |SEPARATOR| <= NextStart(ps[..j])
    ensures (forall k :: i < k < j ==> ps[k].Dropped?) ==>
              NextStart(ps[..i]) + |ps[i].bytes| + |SEPARATOR| == NextStart(ps[..j])
  {
    hide Join, Shown;
    var upto, front := ps[..i + 1], ps[..j];
    assert upto == ps[..i] + [ps[i]] && front[..i + 1] == upto;
    TextStep(ps[..i], ps[i]);
    TextPrefix(front, i + 1);
    ShownSnoc(ps[..i], ps[i]);
    SomethingShown(front, i + 1);
    if forall k :: i < k < j ==> ps[k].Dropped? {
      OnlyDropped(front, i + 1);
    }
  }

  lemma {:induction false} SomethingShown(ps: seq<Piece>, i: nat)
    requires 0 < i <= |ps| && ps[i - 1].Rendered?
    ensures Shown(ps) != []
    decreases |ps|
  {
    if i < |ps| {
      assert ps[..|ps| - 1][i - 1] == ps[i - 1];
      SomethingShown(ps[..|ps| - 1], i);
    }
  }

  lemma {:induction false} OnlyDropped(ps: seq<Piece>, i: nat)
    requires i <= |ps| && forall k :: i <= k < |ps| ==> ps[k].Dropped?
    ensures Shown(ps) == Shown(ps[..i])
    decreases |ps|
  {
    if i == |ps| {
      assert ps[..i] == ps;
    } else {
      assert ps[..|ps| - 1][..i] == ps[..i];
      OnlyDropped(ps[..|ps| - 1], i);
    }
  }

  /** Selected segments that must appear do appear in full. */
  lemma RequiredInFull(kept: seq<Candidate>, b: Budget, i: nat)
    requires i < |kept| && Pieces(kept, |kept|, b).Some? && NonEmpty(kept) && kept[i].segment.behavior.Required?
    ensures |Pieces(kept, |kept|, b).value| == |kept|
    ensures Pieces(kept, |kept|, b).value[i] == Rendered(kept[i].segment.content, false)
  {
    PieceAt(kept, |kept|, b, i);
  }

  // ---------------------------------------------------------------- the methods

  /** The state of the loop after the pieces `ps`. */
  ghost predicate Rendering(sel: Selection, b: Budget, i: nat, ps: seq<Piece>, text: Bytes, diagnostics: seq<Diagnostic>, rows: seq<Row>)
    requires sel.Selection?
  {
    && i <= |sel.kept| && |ps| == i && Pieces(sel.kept, i, b) == Some(ps)
    && text == Join(Shown(ps)) && (text == [] <==> Shown(ps) == [])
    && diagnostics == sel.diagnostics + RenderDiagnostics(sel.kept, ps)
    && rows == sel.rows + RenderRows(sel.kept, ps)
  }

  lemma RenderingStep(sel: Selection, b: Budget, i: nat, ps: seq<Piece>, text: Bytes, diagnostics: seq<Diagnostic>, rows: seq<Row>)
    requires sel.Selection? && i < |sel.kept| && NonEmpty(sel.kept) && Rendering(sel, b, i, ps, text, diagnostics, rows)
    ensures
      var c := sel.kept[i];
      var start := |text| + if text == [] then 0 else |SEPARATOR|;
      && start == NextStart(ps)
      && match Shape(c.segment, Remaining(b, start))
         case None => Pieces(sel.kept, i + 1, b).None?
         case Some(Dropped) =>
           Rendering(sel, b, i + 1, ps + [Dropped], text,
                     diagnostics + [Diagnostic(BudgetOmission, c.segment.id, None, None)], rows + [RowOf(c, OmittedForBudget)])
         case Some(Rendered(bytes, cut)) =>
           Rendering(sel, b, i + 1, ps + [Rendered(bytes, cut)], text + (if text == [] then [] else SEPARATOR) + bytes,
                     diagnostics + (if cut then [Diagnostic(BudgetTruncation, c.segment.id, None, None)] else []),
                     rows + [RowFor(c, Rendered(bytes, cut), start)])
  {
    hide Join, Shown, Remaining;
    var c, remaining := sel.kept[i], Remaining(b, NextStart(ps));
    assert c in sel.kept;
    NothingShown(ps);
    var shape := Shape(c.segment, remaining);
    if shape.Some? {
      var p := shape.value;
      assert (ps + [p])[..i] == ps;
      ShownSnoc(ps, p);
      TextStep(ps, p);
      if p.Rendered? {
        ShapeFits(c.segment, remaining);
      }
    }
  }

  lemma {:induction false} OverflowStays(kept: seq<Candidate>, i: nat, n: nat, b: Budget)
    requires i <= n <= |kept| && Pieces(kept, i, b).None?
    ensures Pieces(kept, n, b).None?
  {
    if i < n {
      OverflowStays(kept, i, n - 1, b);
    }
  }

  method Render(sel: Selection, b: Budget) returns (r: Compiled)
    requires sel.Selection? && NonEmpty(sel.kept)
    ensures r == RenderSpec(sel, b)
  {
    var text: Bytes, diagnostics, rows := [], sel.diagnostics, sel.rows;
    ghost var ps: seq<Piece> := [];
    for i := 0 to |sel.kept|
      invariant Rendering(sel, b, i, ps, text, diagnostics, rows)
    {
      hide Rendering, Shape, Truncation, Remaining, Pieces, NextStart;
      var c := sel.kept[i];
      var start := |text| + if text == [] then 0 else |SEPARATOR|;
      var remaining := Remaining(b, start);
      RenderingStep(sel, b, i, ps, text, diagnostics, rows);
      var shape := Fit(c.segment, remaining);
      if shape.None? {
        OverflowStays(sel.kept, i + 1, |sel.kept|, b);
        return Err(BudgetExceeded);
      }
      ps := ps + [shape.value];
      match shape.value {
        case Dropped =>
          diagnostics := diagnostics + [Diagnostic(BudgetOmission, c.segment.id, None, None)];
          rows := rows + [RowOf(c, OmittedForBudget)];
        case Rendered(bytes, cut) =>
          text := text + (if text == [] then [] else SEPARATOR) + bytes;
          diagnostics := diagnostics + (if cut then [Diagnostic(BudgetTruncation, c.segment.id, None, None)] else []);
          rows := rows + [RowFor(c, shape.value, start)];
      }
    }
    if |text| > b.maxBytes || Tokens(|text|) > b.maxTokens {
      return Err(BudgetExceeded);
    }
    r := Ok(Prompt(text, Tokens(|text|), Sort(diagnostics, DiagnosticLeq), Sort(rows, RowLeq)));
  }

  /** Decides between full content, truncation, omission and failure. */
  method Fit(s: Segment, remaining: nat) returns (shape: Option<Piece>)
    ensures shape == Shape(s, remaining)
  {
    if |s.content| <= remaining {
      return Some(Rendered(s.content, false));
    }
    match s.behavior {
      case Required => return None;
      case Omit => return Some(Dropped);
      case Truncate =>
        var cut := Shorten(s.content, remaining);
        return Some(if cut.None? then Dropped else Rendered(cut.value, true));
    }
  }

  lemma {:induction false} SelectedFrom(cs: seq<Candidate>, n: nat)
    requires n <= |cs| && NonEmpty(cs)
    ensures NonEmpty(Selected(cs, n))
  {
    if n > 0 {
      SelectedFrom(cs, n - 1);
      assert cs[n - 1] in cs;
    }
  }

  predicate ValidModules(ms: seq<Module>) {
    forall m <- ms, s <- m.segments :: s.content != []
  }

  lemma {:induction false} CandidatesNonEmpty(m: Module, n: nat)
    requires n <= |m.segments| && forall s <- m.segments :: s.content != []
    ensures NonEmpty(Candidates(m, n))
  {
    if n > 0 {
      CandidatesNonEmpty(m, n - 1);
      assert m.segments[n - 1] in m.segments;
    }
  }

  lemma {:induction false} FlattenNonEmpty(ms: seq<Module>)
    requires ValidModules(ms)
    ensures NonEmpty(Flatten(ms))
  {
    if ms != [] {
      FlattenNonEmpty(ms[..|ms| - 1]);
      assert ms[|ms| - 1] in ms;
      CandidatesNonEmpty(ms[|ms| - 1], |ms[|ms| - 1].segments|);
    }
  }

  lemma {:induction false} SortMembers<T>(s: seq<T>, leq: (T, T) -> bool)
    ensures |Sort(s, leq)| == |s|
    ensures forall y :: y in Sort(s, leq) <==> y in s
  {
    if s != [] {
      SortMembers(s[..|s| - 1], leq);
      InsertMembers(Sort(s[..|s| - 1], leq), s[|s| - 1], leq);
      assert s == s[..|s| - 1] + [s[|s| - 1]];
    }
  }

  lemma OrderedNonEmpty(ms: seq<Module>)
    requires ValidModules(ms)
    ensures NonEmpty(Ordered(ms))
  {
    FlattenNonEmpty(ms);
    SortMembers(Flatten(ms), Precedes);
  }

  /** The compiler: flatten, sort, select, render. */
  method Compile(ms: seq<Module>, b: Budget) returns (r: Compiled)
    requires ValidModules(ms)
    ensures r == CompileSpec(ms, b)
  {
    if |ms| > MAX_COMPILE_MODULES {
      return Err(BoundsExceeded);
    }
    var cs := Ordered(ms);
    var sel := Select(cs);
    if sel.Failure? {
      return Err(sel.code);
    }
    OrderedNonEmpty(ms);
    SelectedFrom(cs, |cs|);
    r := Render(sel, b);
  }

  /** Text, diagnostics, inspection rows and errors are the same for every order of compatible modules. */
  lemma CompilationIgnoresOrder(ms: seq<Module>, ns: seq<Module>, b: Budget)
    requires Compatible(ms) && multiset(ms) == multiset(ns)
    ensures CompileSpec(ms, b) == CompileSpec(ns, b)
  {
    assert |ms| == |multiset(ms)| == |multiset(ns)| == |ns|;
    OrderDoesNotMatter(ms, ns);
  }
}

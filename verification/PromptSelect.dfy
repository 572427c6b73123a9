/**
 Selection among ordered candidates: exact duplicates and lower claimants of a
 conflict key drop out, divergent duplicates and equal-precedence conflicts fail.
*/
module PromptSelect {
  import opened Basics
  import opened PromptModules
  import opened StableSort

  datatype ErrorCode = BoundsExceeded | DuplicateIdentity | AmbiguousConflict | BudgetExceeded

  datatype Disposition = Included | Truncated | Duplicate | ConflictShadowed | OmittedForBudget

  /** One inspection row; a rendered row has its byte range in the output. */
  datatype Row = Row(moduleId: nat, segmentId: nat, authority: nat, labels: nat, disposition: Disposition,
                     range: Option<(nat, nat)>, bytes: nat, tokens: nat)

  /** Diagnostic codes in their declared order. */
  datatype DiagnosticCode = ExactDuplicate | Shadow | ProtectedConflict | BudgetOmission | BudgetTruncation

  datatype Diagnostic = Diagnostic(code: DiagnosticCode, segmentId: nat, winner: Option<nat>, key: Option<nat>)

  predicate SamePrecedence(a: Candidate, b: Candidate) {
    a.authority == b.authority && a.priority == b.priority
  }

  // ------------------------------------------------------------- declaratively

  /** The first candidate before `n` with segment identity `id`. */
  function FirstWith(cs: seq<Candidate>, n: nat, id: nat): Option<nat>
    requires n <= |cs|
  {
    if n == 0 then None
    else if FirstWith(cs, n - 1, id).Some? then FirstWith(cs, n - 1, id)
    else if cs[n - 1].segment.id == id then Some(n - 1) else None
  }

  predicate New(cs: seq<Candidate>, i: nat)
    requires i < |cs|
  {
    FirstWith(cs, i, cs[i].segment.id).None?
  }

  predicate Claims(c: Candidate, key: nat) {
    c.segment.claim.Some? && c.segment.claim.value.key == key
  }

  /** The first candidate before `n` with a new identity that claims `key`. */
  function FirstClaim(cs: seq<Candidate>, n: nat, key: nat): Option<nat>
    requires n <= |cs|
  {
    if n == 0 then None
    else if FirstClaim(cs, n - 1, key).Some? then FirstClaim(cs, n - 1, key)
    else if New(cs, n - 1) && Claims(cs[n - 1], key) then Some(n - 1) else None
  }

  datatype Fate = Kept | Repeats(of: nat) | Diverges | Yields(to: nat) | Clashes

  function FateOf(cs: seq<Candidate>, i: nat): Fate
    requires i < |cs|
  {
    var c := cs[i];
    match FirstWith(cs, i, c.segment.id)
    case Some(j) => if j < i && cs[j].segment == c.segment then Repeats(j) else Diverges
    case None =>
      if c.segment.claim.None? then Kept
      else
        match FirstClaim(cs, i, c.segment.claim.value.key)
        case None => Kept
        case Some(j) =>
          if j < i && SamePrecedence(c, cs[j]) && c.segment.content != cs[j].segment.content then Clashes else Yields(j)
  }

  predicate Bad(f: Fate) {
    f.Diverges? || f.Clashes?
  }

  function Selected(cs: seq<Candidate>, n: nat): seq<Candidate>
    requires n <= |cs|
  {
    if n == 0 then [] else Selected(cs, n - 1) + (if FateOf(cs, n - 1).Kept? then [cs[n - 1]] else [])
  }

  function RowOf(c: Candidate, d: Disposition): Row {
    Row(c.moduleId, c.segment.id, c.authority, c.segment.labels, d, None, 0, 0)
  }

  function DroppedRows(cs: seq<Candidate>, n: nat): seq<Row>
    requires n <= |cs|
  {
    if n == 0 then []
    else
      DroppedRows(cs, n - 1) +
      (match FateOf(cs, n - 1)
       case Repeats(_) => [RowOf(cs[n - 1], Duplicate)]
       case Yields(_) => [RowOf(cs[n - 1], ConflictShadowed)]
       case _ => [])
  }

  function DiagnosticOf(cs: seq<Candidate>, i: nat): seq<Diagnostic>
    requires i < |cs|
  {
    var s := cs[i].segment;
    match FateOf(cs, i)
    case Repeats(_) => [Diagnostic(ExactDuplicate, s.id, Some(s.id), None)]
    case Yields(j) =>
      if j < i && s.claim.Some? then
        var w := cs[j].segment;
        [Diagnostic(if w.claim.Some? && w.claim.value.protected then ProtectedConflict else Shadow,
                    s.id, Some(w.id), Some(s.claim.value.key))]
      else []
    case _ => []
  }

  function Diagnostics(cs: seq<Candidate>, n: nat): seq<Diagnostic>
    requires n <= |cs|
  {
    if n == 0 then [] else Diagnostics(cs, n - 1) + DiagnosticOf(cs, n - 1)
  }

  /** The first candidate that makes selection fail. */
  function FirstBad(cs: seq<Candidate>, n: nat): Option<nat>
    requires n <= |cs|
  {
    if n == 0 then None
    else if FirstBad(cs, n - 1).Some? then FirstBad(cs, n - 1)
    else if Bad(FateOf(cs, n - 1)) then Some(n - 1) else None
  }

  datatype Selection = Selection(kept: seq<Candidate>, diagnostics: seq<Diagnostic>, rows: seq<Row>) | Failure(code: ErrorCode)

  function SelectSpec(cs: seq<Candidate>): Selection {
    match FirstBad(cs, |cs|)
    case Some(i) => Failure(if i < |cs| && FateOf(cs, i).Clashes? then AmbiguousConflict else DuplicateIdentity)
    case None => Selection(Selected(cs, |cs|), Diagnostics(cs, |cs|), DroppedRows(cs, |cs|))
  }

  lemma {:induction false} FirstWithFacts(cs: seq<Candidate>, n: nat, id: nat)
    requires n <= |cs|
    ensures
      match FirstWith(cs, n, id)
      case Some(i) => i < n && cs[i].segment.id == id && New(cs, i) && forall j :: 0 <= j < i ==> cs[j].segment.id != id
      case None => forall j :: 0 <= j < n ==> cs[j].segment.id != id
  {
    if n > 0 {
      FirstWithFacts(cs, n - 1, id);
    }
  }

  lemma {:induction false} FirstClaimFacts(cs: seq<Candidate>, n: nat, key: nat)
    requires n <= |cs|
    ensures
      match FirstClaim(cs, n, key)
      case Some(i) =>
        && i < n && New(cs, i) && Claims(cs[i], key) && FirstClaim(cs, i, key).None?
        && forall j :: 0 <= j < i ==> !(New(cs, j) && Claims(cs[j], key))
      case None => forall j :: 0 <= j < n ==> !(New(cs, j) && Claims(cs[j], key))
  {
    if n > 0 {
      FirstClaimFacts(cs, n - 1, key);
    }
  }

  // ---------------------------------------------------------------- the method

  /** The two lookup tables after `n` candidates. */
  ghost predicate Tables(cs: seq<Candidate>, n: nat, identities: map<nat, Candidate>, conflicts: map<nat, Candidate>)
    requires n <= |cs|
  {
    && (forall id: nat :: (id in identities <==> FirstWith(cs, n, id).Some?)
          && (id in identities && FirstWith(cs, n, id).value < n ==> identities[id] == cs[FirstWith(cs, n, id).value]))
    && (forall key: nat :: (key in conflicts <==> FirstClaim(cs, n, key).Some?)
          && (key in conflicts && FirstClaim(cs, n, key).value < n ==> conflicts[key] == cs[FirstClaim(cs, n, key).value]))
  }

  lemma TablesStep(cs: seq<Candidate>, n: nat, identities: map<nat, Candidate>, conflicts: map<nat, Candidate>)
    requires n < |cs| && Tables(cs, n, identities, conflicts)
    ensures
      var c := cs[n];
      if !New(cs, n) then Tables(cs, n + 1, identities, conflicts)
      else if c.segment.claim.Some? && FirstClaim(cs, n, c.segment.claim.value.key).None?
      then Tables(cs, n + 1, identities[c.segment.id := c], conflicts[c.segment.claim.value.key := c])
      else Tables(cs, n + 1, identities[c.segment.id := c], conflicts)
  {
    forall id: nat { FirstWithFacts(cs, n, id); }
    forall key: nat { FirstClaimFacts(cs, n, key); }
  }

  lemma TablesAt(cs: seq<Candidate>, n: nat, identities: map<nat, Candidate>, conflicts: map<nat, Candidate>, id: nat, key: nat)
    requires n <= |cs| && Tables(cs, n, identities, conflicts)
    ensures id in identities <==> FirstWith(cs, n, id).Some?
    ensures id in identities ==> FirstWith(cs, n, id).value < n && identities[id] == cs[FirstWith(cs, n, id).value]
    ensures id in identities ==> identities[id].segment.id == id
    ensures key in conflicts <==> FirstClaim(cs, n, key).Some?
    ensures key in conflicts ==> FirstClaim(cs, n, key).value < n && conflicts[key] == cs[FirstClaim(cs, n, key).value]
    ensures key in conflicts ==> Claims(conflicts[key], key)
  {
    FirstWithFacts(cs, n, id);
    FirstClaimFacts(cs, n, key);
  }

  lemma {:induction false} BadStays(cs: seq<Candidate>, i: nat, n: nat)
    requires i <= n <= |cs| && FirstBad(cs, i).Some?
    ensures FirstBad(cs, n) == FirstBad(cs, i)
  {
    if i < n {
      BadStays(cs, i, n - 1);
    }
  }

  lemma OneMore(cs: seq<Candidate>, i: nat)
    requires i < |cs|
    ensures Selected(cs, i + 1) == Selected(cs, i) + (if FateOf(cs, i).Kept? then [cs[i]] else [])
    ensures Diagnostics(cs, i + 1) == Diagnostics(cs, i) + DiagnosticOf(cs, i)
    ensures DroppedRows(cs, i + 1) == DroppedRows(cs, i) +
                                      (match FateOf(cs, i)
                                       case Repeats(_) => [RowOf(cs[i], Duplicate)]
                                       case Yields(_) => [RowOf(cs[i], ConflictShadowed)]
                                       case _ => [])
    ensures FirstBad(cs, i).None? ==> FirstBad(cs, i + 1) == if Bad(FateOf(cs, i)) then Some(i) else None
  {
  }

  /** The diagnostic for a claimant that yields. */
  function Shadowed(c: Candidate, winner: Candidate, key: nat): Diagnostic {
    Diagnostic(if winner.segment.claim.Some? && winner.segment.claim.value.protected then ProtectedConflict else Shadow,
               c.segment.id, Some(winner.segment.id), Some(key))
  }

  /** The fate of the next candidate, looked up in the tables. */
  lemma FateFromTables(cs: seq<Candidate>, i: nat, identities: map<nat, Candidate>, conflicts: map<nat, Candidate>)
    requires i < |cs| && Tables(cs, i, identities, conflicts)
    ensures
      var c, fate := cs[i], FateOf(cs, i);
      if c.segment.id in identities then
        && identities[c.segment.id].segment.id == c.segment.id && !New(cs, i)
        && if identities[c.segment.id].segment != c.segment then fate.Diverges?
           else fate.Repeats? && DiagnosticOf(cs, i) == [Diagnostic(ExactDuplicate, c.segment.id, Some(c.segment.id), None)]
      else
        && New(cs, i)
        && if c.segment.claim.Some? && c.segment.claim.value.key in conflicts then
             var key := c.segment.claim.value.key;
             && FirstClaim(cs, i, key).Some?
             && if SamePrecedence(c, conflicts[key]) && c.segment.content != conflicts[key].segment.content then fate.Clashes?
                else fate.Yields? && DiagnosticOf(cs, i) == [Shadowed(c, conflicts[key], key)]
           else
             && fate.Kept? && DiagnosticOf(cs, i) == []
             && (c.segment.claim.Some? ==> FirstClaim(cs, i, c.segment.claim.value.key).None?)
  {
    var c := cs[i];
    TablesAt(cs, i, identities, conflicts, c.segment.id, if c.segment.claim.Some? then c.segment.claim.value.key else 0);
    hide Tables, FirstWith, FirstClaim;
  }

  method Select(cs: seq<Candidate>) returns (r: Selection)
    ensures r == SelectSpec(cs)
  {
    var identities: map<nat, Candidate>, conflicts: map<nat, Candidate> := map[], map[];
    var kept: seq<Candidate>, diagnostics: seq<Diagnostic>, rows: seq<Row> := [], [], [];
    for i := 0 to |cs|
      invariant Tables(cs, i, identities, conflicts) && FirstBad(cs, i).None?
      invariant kept == Selected(cs, i) && diagnostics == Diagnostics(cs, i) && rows == DroppedRows(cs, i)
    {
      hide Tables, FirstWith, FirstClaim, Selected, Diagnostics, DroppedRows, FirstBad, FateOf, DiagnosticOf, New;
      OneMore(cs, i);
      var c := cs[i];
      var key := if c.segment.claim.Some? then c.segment.claim.value.key else 0;
      FateFromTables(cs, i, identities, conflicts);
      TablesStep(cs, i, identities, conflicts);
      if c.segment.id in identities {
        if identities[c.segment.id].segment != c.segment {
          BadStays(cs, i + 1, |cs|);
          return Failure(DuplicateIdentity);
        }
        diagnostics := diagnostics + [Diagnostic(ExactDuplicate, c.segment.id, Some(identities[c.segment.id].segment.id), None)];
        rows := rows + [RowOf(c, Duplicate)];
      } else {
        identities := identities[c.segment.id := c];
        if c.segment.claim.Some? && key in conflicts {
          var winner := conflicts[key];
          if SamePrecedence(c, winner) && c.segment.content != winner.segment.content {
            BadStays(cs, i + 1, |cs|);
            return Failure(AmbiguousConflict);
          }
          var code := if winner.segment.claim.Some? && winner.segment.claim.value.protected then ProtectedConflict else Shadow;
          diagnostics := diagnostics + [Diagnostic(code, c.segment.id, Some(winner.segment.id), Some(key))];
          rows := rows + [RowOf(c, ConflictShadowed)];
        } else {
          if c.segment.claim.Some? {
            conflicts := conflicts[key := c];
          }
          kept := kept + [c];
        }
      }
    }
    r := Selection(kept, diagnostics, rows);
  }

  // ----------------------------------------------------- what selection promises

  /** Kept segments have distinct identities and distinct conflict keys. */
  lemma KeptAreDistinct(cs: seq<Candidate>, i: nat, j: nat)
    requires i < j < |cs| && FateOf(cs, i).Kept? && FateOf(cs, j).Kept?
    ensures cs[i].segment.id != cs[j].segment.id
    ensures cs[i].segment.claim.Some? && cs[j].segment.claim.Some? ==>
              cs[i].segment.claim.value.key != cs[j].segment.claim.value.key
  {
    FirstWithFacts(cs, j, cs[j].segment.id);
    if cs[j].segment.claim.Some? {
      FirstClaimFacts(cs, j, cs[j].segment.claim.value.key);
      assert New(cs, i);
    }
  }

  /** Among all new claimants of a key exactly the first in precedence order is kept. */
  lemma HighestClaimantWins(cs: seq<Candidate>, j: nat, key: nat)
    requires j < |cs| && Sorted(cs, Precedes) && New(cs, j) && Claims(cs[j], key)
    ensures
      exists i: nat :: i <= j && New(cs, i) && Claims(cs[i], key) && FateOf(cs, i).Kept?
                       && cs[i].authority <= cs[j].authority && (i == j || Precedes(cs[i], cs[j]))
    ensures FateOf(cs, j).Kept? <==> forall i: nat :: i < j && New(cs, i) ==> !Claims(cs[i], key)
  {
    FirstClaimFacts(cs, j, key);
    match FirstClaim(cs, j, key) {
      case None => assert FateOf(cs, j).Kept?;
      case Some(i) =>
        assert FateOf(cs, i).Kept?;
        assert Precedes(cs[i], cs[j]);
    }
  }

  /** A segment only yields to one of at least its authority and, within it, at least its priority. */
  lemma NeverDisplacedFromBelow(cs: seq<Candidate>, j: nat)
    requires j < |cs| && Sorted(cs, Precedes) && FateOf(cs, j).Yields?
    ensures
      var i := FateOf(cs, j).to;
      && i < j && FateOf(cs, i).Kept? && cs[i].authority <= cs[j].authority
      && (cs[i].authority == cs[j].authority ==> cs[i].priority >= cs[j].priority)
      && (SamePrecedence(cs[i], cs[j]) ==> cs[i].segment.content == cs[j].segment.content)
  {
    FirstClaimFacts(cs, j, cs[j].segment.claim.value.key);
    assert Precedes(cs[FateOf(cs, j).to], cs[j]);
  }

  ghost predicate DivergentPair(cs: seq<Candidate>, i: nat, j: nat) {
    i < j < |cs| && cs[i].segment.id == cs[j].segment.id && cs[i].segment != cs[j].segment
  }

  /** `i` is kept for a key that `j`, of the same precedence, claims with other content. */
  ghost predicate ClashingPair(cs: seq<Candidate>, i: nat, j: nat) {
    && i < j < |cs| && FateOf(cs, i).Kept? && New(cs, j) && cs[i].segment.claim.Some?
    && Claims(cs[j], cs[i].segment.claim.value.key) && SamePrecedence(cs[i], cs[j])
    && cs[i].segment.content != cs[j].segment.content
  }

  lemma {:induction false} FirstBadFacts(cs: seq<Candidate>, n: nat)
    requires n <= |cs|
    ensures
      match FirstBad(cs, n)
      case Some(i) => i < n && Bad(FateOf(cs, i)) && forall j :: 0 <= j < i ==> !Bad(FateOf(cs, j))
      case None => forall j :: 0 <= j < n ==> !Bad(FateOf(cs, j))
  {
    if n > 0 {
      FirstBadFacts(cs, n - 1);
    }
  }

  /** Selection fails exactly on two different definitions of one identity or an equal-precedence conflict. */
  lemma FailsIff(cs: seq<Candidate>)
    ensures SelectSpec(cs).Failure? <==>
              (exists i, j :: DivergentPair(cs, i, j)) || (exists i, j :: ClashingPair(cs, i, j))
  {
    FirstBadFacts(cs, |cs|);
    match FirstBad(cs, |cs|) {
      case Some(j) =>
        BadHasPair(cs, j);
      case None =>
        forall i: nat, j: nat ensures !DivergentPair(cs, i, j) && !ClashingPair(cs, i, j) {
          if i < j < |cs| {
            NoPair(cs, i, j);
          }
        }
    }
  }

  lemma BadHasPair(cs: seq<Candidate>, j: nat)
    requires j < |cs| && Bad(FateOf(cs, j))
    ensures exists i :: DivergentPair(cs, i, j) || ClashingPair(cs, i, j)
  {
    FirstWithFacts(cs, j, cs[j].segment.id);
    if FateOf(cs, j).Diverges? {
      assert DivergentPair(cs, FirstWith(cs, j, cs[j].segment.id).value, j);
    } else {
      var key := cs[j].segment.claim.value.key;
      FirstClaimFacts(cs, j, key);
      assert FateOf(cs, FirstClaim(cs, j, key).value).Kept?;
      assert ClashingPair(cs, FirstClaim(cs, j, key).value, j);
    }
  }

  lemma NoPair(cs: seq<Candidate>, i: nat, j: nat)
    requires i < j < |cs| && forall k :: 0 <= k < |cs| ==> !Bad(FateOf(cs, k))
    ensures !DivergentPair(cs, i, j) && !ClashingPair(cs, i, j)
  {
    var id := cs[j].segment.id;
    FirstWithFacts(cs, j, id);
    FirstWithFacts(cs, i, id);
    assert !Bad(FateOf(cs, i)) && !Bad(FateOf(cs, j));
    if cs[i].segment.claim.Some? {
      var key := cs[i].segment.claim.value.key;
      FirstClaimFacts(cs, i, key);
      FirstClaimFacts(cs, j, key);
    }
  }
}

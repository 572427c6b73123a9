/**
 Prompt modules flattened into candidates and sorted by precedence, and exactly
 when the order in which modules are given does not matter.
*/
module PromptModules {
  import opened Basics
  import opened StableSort

  datatype Claim = Claim(key: nat, protected: bool)

  datatype Behavior = Required | Truncate | Omit

  /** Identities are ordered values; `labels` stands for provenance, trust and cache scope. */
  datatype Segment = Segment(id: nat, content: Bytes, behavior: Behavior, claim: Option<Claim>, labels: nat)

  /** Authorities are numbered from the highest. */
  datatype Module = Module(id: nat, authority: nat, priority: int, segments: seq<Segment>)

  datatype Candidate = Candidate(moduleId: nat, authority: nat, priority: int, order: nat, segment: Segment)

  /** By authority, then descending priority, then module identity, then source order. */
  predicate Precedes(a: Candidate, b: Candidate) {
    if a.authority != b.authority then a.authority < b.authority
    else if a.priority != b.priority then a.priority > b.priority
    else if a.moduleId != b.moduleId then a.moduleId < b.moduleId
    else a.order <= b.order
  }

  function Candidates(m: Module, n: nat): seq<Candidate>
    requires n <= |m.segments|
  {
    if n == 0 then []
    else Candidates(m, n - 1) + [Candidate(m.id, m.authority, m.priority, n - 1, m.segments[n - 1])]
  }

  function Flatten(ms: seq<Module>): seq<Candidate> {
    if ms == [] then []
    else
      var last := ms[|ms| - 1];
      Flatten(ms[..|ms| - 1]) + Candidates(last, |last.segments|)
  }

  function Ordered(ms: seq<Module>): seq<Candidate> {
    Sort(Flatten(ms), Precedes)
  }

  lemma PrecedesIsPreorder()
    ensures Preorder(Precedes)
  {
  }

  /**
   Two candidates stand by authority, then descending priority, then ascending module
   identity, then ascending position in the module; only candidates that agree in all
   four keep the order of their modules.
  */
  lemma OrderedByFields(ms: seq<Module>, i: nat, j: nat)
    requires i < j < |Ordered(ms)|
    ensures
      var x, y := Ordered(ms)[i], Ordered(ms)[j];
      && x.authority <= y.authority
      && (x.authority == y.authority ==> x.priority >= y.priority)
      && (x.authority == y.authority && x.priority == y.priority ==> x.moduleId <= y.moduleId)
      && (x.authority == y.authority && x.priority == y.priority && x.moduleId == y.moduleId ==> x.order <= y.order)
  {
    hide Sort, Flatten;
    PrecedesIsPreorder();
    SortIsStable(Flatten(ms), Precedes);
    assert Precedes(Ordered(ms)[i], Ordered(ms)[j]);
  }

  lemma {:induction false} CandidateOrder(m: Module, n: nat, i: nat)
    requires i < n <= |m.segments|
    ensures |Candidates(m, n)| == n && Candidates(m, n)[i] == Candidate(m.id, m.authority, m.priority, i, m.segments[i])
  {
    if i < n - 1 {
      CandidateOrder(m, n - 1, i);
    } else if n > 1 {
      CandidateOrder(m, n - 1, 0);
    }
  }

  /** The segments of one module stand in their source order. */
  lemma SourceOrderKept(ms: seq<Module>, i: nat, j: nat)
    requires i < |Ordered(ms)| && j < |Ordered(ms)|
    requires
      var x, y := Ordered(ms)[i], Ordered(ms)[j];
      x.authority == y.authority && x.priority == y.priority && x.moduleId == y.moduleId && x.order < y.order
    ensures i < j
  {
    if j < i {
      OrderedByFields(ms, j, i);
    }
  }

  // ------------------------------------------------- candidates of one position

  predicate Contributes(m: Module, x: Candidate) {
    m.authority == x.authority && m.priority == x.priority && m.id == x.moduleId && x.order < |m.segments|
  }

  /** What module `m` puts at the position of `x`. */
  function Entry(m: Module, x: Candidate): seq<Candidate> {
    if Contributes(m, x) then [x.(segment := m.segments[x.order])] else []
  }

  function Entries(ms: seq<Module>, x: Candidate): seq<Candidate> {
    if ms == [] then [] else Entries(ms[..|ms| - 1], x) + Entry(ms[|ms| - 1], x)
  }

  lemma {:induction false} LikeAppend(a: seq<Candidate>, b: seq<Candidate>, x: Candidate)
    ensures Like(a + b, x, Precedes) == Like(a, x, Precedes) + Like(b, x, Precedes)
    decreases |b|
  {
    if b == [] {
      assert a + b == a;
    } else {
      assert (a + b)[..|a + b| - 1] == a + b[..|b| - 1];
      LikeAppend(a, b[..|b| - 1], x);
    }
  }

  lemma {:induction false} LikeCandidates(m: Module, n: nat, x: Candidate)
    requires n <= |m.segments|
    ensures Like(Candidates(m, n), x, Precedes) == if x.order < n then Entry(m, x) else []
  {
    if n > 0 {
      LikeCandidates(m, n - 1, x);
      LikeSnoc(Candidates(m, n - 1), Candidate(m.id, m.authority, m.priority, n - 1, m.segments[n - 1]), x, Precedes);
    }
  }

  lemma {:induction false} LikeFlatten(ms: seq<Module>, x: Candidate)
    ensures Like(Flatten(ms), x, Precedes) == Entries(ms, x)
  {
    if ms != [] {
      var front, last := ms[..|ms| - 1], ms[|ms| - 1];
      LikeFlatten(front, x);
      LikeAppend(Flatten(front), Candidates(last, |last.segments|), x);
      LikeCandidates(last, |last.segments|, x);
    }
  }

  lemma {:induction false} EntriesAppend(a: seq<Module>, b: seq<Module>, x: Candidate)
    ensures Entries(a + b, x) == Entries(a, x) + Entries(b, x)
    decreases |b|
  {
    if b == [] {
      assert a + b == a;
    } else {
      assert (a + b)[..|a + b| - 1] == a + b[..|b| - 1];
      EntriesAppend(a, b[..|b| - 1], x);
    }
  }

  lemma EntriesAround(ms: seq<Module>, j: nat, x: Candidate)
    requires j < |ms|
    ensures Entries(ms, x) == Entries(ms[..j], x) + Entry(ms[j], x) + Entries(ms[j + 1..], x)
  {
    var one := [ms[j]];
    assert ms == ms[..j] + one + ms[j + 1..];
    EntriesAppend(ms[..j] + one, ms[j + 1..], x);
    EntriesAppend(ms[..j], one, x);
    assert Entries(one, x) == Entry(ms[j], x) by { assert one[..0] == []; }
  }

  // --------------------------------------------------------------- permutations

  predicate SameRank(a: Module, b: Module) {
    a.authority == b.authority && a.priority == b.priority && a.id == b.id
  }

  predicate Agree(a: Module, b: Module) {
    forall k :: 0 <= k < |a.segments| && k < |b.segments| ==> a.segments[k] == b.segments[k]
  }

  /** Modules that share authority, priority and identity agree wherever both have a segment. */
  predicate Compatible(ms: seq<Module>) {
    forall i, j :: 0 <= i < j < |ms| && SameRank(ms[i], ms[j]) ==> Agree(ms[i], ms[j])
  }

  lemma {:induction false} SameEntryCount(ms: seq<Module>, ns: seq<Module>, x: Candidate)
    requires multiset(ms) == multiset(ns)
    ensures |Entries(ms, x)| == |Entries(ns, x)|
    decreases |ms|
  {
    if ms == [] {
      assert |multiset(ns)| == 0;
    } else {
      var n, last := |ms| - 1, ms[|ms| - 1];
      WithoutOne(ms, n);
      assert ms[..n] + ms[n + 1..] == ms[..n];
      assert last in multiset(ns);
      var j :| 0 <= j < |ns| && ns[j] == last;
      WithoutOne(ns, j);
      SameEntryCount(ms[..n], ns[..j] + ns[j + 1..], x);
      EntriesAround(ns, j, x);
      EntriesAppend(ns[..j], ns[j + 1..], x);
    }
  }

  lemma WithoutOne(ms: seq<Module>, j: nat)
    requires j < |ms|
    ensures multiset(ms[..j] + ms[j + 1..]) == multiset(ms) - multiset{ms[j]} && ms[j] in multiset(ms)
  {
    assert ms == ms[..j] + [ms[j]] + ms[j + 1..];
  }

  lemma {:induction false} EntriesFrom(ms: seq<Module>, x: Candidate, c: Candidate)
    requires c in Entries(ms, x)
    ensures exists m <- ms :: Entry(m, x) == [c]
  {
    var front, last := ms[..|ms| - 1], ms[|ms| - 1];
    if c in Entry(last, x) {
      assert last in ms;
    } else {
      EntriesFrom(front, x, c);
      var m :| m in front && Entry(m, x) == [c];
      assert m in ms;
    }
  }

  lemma OneValue(ms: seq<Module>, ns: seq<Module>, x: Candidate, c: Candidate, d: Candidate)
    requires Compatible(ms) && multiset(ms) == multiset(ns) && c in Entries(ms, x) && d in Entries(ns, x)
    ensures c == d
  {
    EntriesFrom(ms, x, c);
    EntriesFrom(ns, x, d);
    var m :| m in ms && Entry(m, x) == [c];
    var n :| n in ns && Entry(n, x) == [d];
    assert n in multiset(ns) && n in ms;
    var i, j :| 0 <= i < |ms| && 0 <= j < |ms| && ms[i] == m && ms[j] == n;
    assert SameRank(m, n);
    if i < j { assert Agree(ms[i], ms[j]); } else if j < i { assert Agree(ms[j], ms[i]); }
  }

  lemma PermutedEntries(ms: seq<Module>, ns: seq<Module>, x: Candidate)
    requires Compatible(ms) && multiset(ms) == multiset(ns)
    ensures Entries(ms, x) == Entries(ns, x)
  {
    SameEntryCount(ms, ns, x);
    forall k | 0 <= k < |Entries(ms, x)| ensures Entries(ms, x)[k] == Entries(ns, x)[k] {
      OneValue(ms, ns, x, Entries(ms, x)[k], Entries(ns, x)[k]);
    }
  }

  /** Any order of compatible modules gives the same candidates in the same order. */
  lemma OrderDoesNotMatter(ms: seq<Module>, ns: seq<Module>)
    requires Compatible(ms) && multiset(ms) == multiset(ns)
    ensures Ordered(ms) == Ordered(ns)
  {
    PrecedesIsPreorder();
    forall x ensures Like(Flatten(ms), x, Precedes) == Like(Flatten(ns), x, Precedes) {
      LikeFlatten(ms, x);
      LikeFlatten(ns, x);
      PermutedEntries(ms, ns, x);
    }
    SameSortIffSameClasses(Flatten(ms), Flatten(ns), Precedes);
  }

  function Swapped(ms: seq<Module>, i: nat, j: nat): seq<Module>
    requires i < j < |ms|
  {
    ms[i := ms[j]][j := ms[i]]
  }

  lemma SwapPermutes(ms: seq<Module>, i: nat, j: nat)
    requires i < j < |ms|
    ensures multiset(Swapped(ms, i, j)) == multiset(ms)
  {
  }

  /** Exchanging two modules that disagree at a common position changes the candidate order. */
  lemma SwapMatters(ms: seq<Module>, i: nat, j: nat)
    requires i < j < |ms| && SameRank(ms[i], ms[j]) && !Agree(ms[i], ms[j])
    ensures multiset(Swapped(ms, i, j)) == multiset(ms)
    ensures Ordered(Swapped(ms, i, j)) != Ordered(ms)
  {
    hide Entries, Flatten, Sort, Like;
    SwapPermutes(ms, i, j);
    var ns := Swapped(ms, i, j);
    var k :| 0 <= k < |ms[i].segments| && k < |ms[j].segments| && ms[i].segments[k] != ms[j].segments[k];
    var x := Candidate(ms[i].id, ms[i].authority, ms[i].priority, k, ms[i].segments[k]);
    EntriesAround(ms, i, x);
    EntriesAround(ns, i, x);
    assert ns[..i] == ms[..i];
    var at := |Entries(ms[..i], x)|;
    assert Entries(ms, x)[at] != Entries(ns, x)[at];
    LikeFlatten(ms, x);
    LikeFlatten(ns, x);
    PrecedesIsPreorder();
    assert !SameClasses(Flatten(ms), Flatten(ns), Precedes);
    SameSortIffSameClasses(Flatten(ms), Flatten(ns), Precedes);
  }

  /** The candidate order is the same for every order of the modules exactly when they are compatible. */
  lemma OrderIndependentIffCompatible(ms: seq<Module>)
    ensures Compatible(ms) <==> forall ns: seq<Module> :: multiset(ms) == multiset(ns) ==> Ordered(ms) == Ordered(ns)
  {
    if Compatible(ms) {
      forall ns: seq<Module> | multiset(ms) == multiset(ns) ensures Ordered(ms) == Ordered(ns) {
        OrderDoesNotMatter(ms, ns);
      }
    } else {
      var i, j :| 0 <= i < j < |ms| && SameRank(ms[i], ms[j]) && !Agree(ms[i], ms[j]);
      SwapMatters(ms, i, j);
    }
  }
}

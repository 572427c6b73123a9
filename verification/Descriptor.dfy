/**
 Canonical descriptor JSON and the bytes that are hashed into a descriptor digest.
 An object is its list of entries in the order it happens to be held.
*/
module Descriptor {
  import opened Basics
  import opened StableSort

  const MAX_DEPTH: nat := 32

  datatype Entry = Entry(key: nat, value: Json)

  /** Keys are ordered values; `Scalar` covers null, booleans, numbers and strings. */
  datatype Json = Scalar(value: nat) | Array(items: seq<Json>) | Object(entries: seq<Entry>)

  predicate KeyLeq(a: Entry, b: Entry) {
    a.key <= b.key
  }

  // ---------------------------------------------------------------------- depth

  function Max(a: nat, b: nat): nat {
    if a >= b then a else b
  }

  function Depth(v: Json, depth: nat): nat
    decreases v, 1, 0
  {
    match v
    case Scalar(_) => depth
    case Array(items) => DepthItems(v, |items|, depth)
    case Object(entries) => DepthEntries(v, |entries|, depth)
  }

  /** The deepest of the first `n` items of an array. */
  function DepthItems(v: Json, n: nat, depth: nat): nat
    requires v.Array? && n <= |v.items|
    decreases v, 0, n
  {
    if n == 0 then depth else Max(DepthItems(v, n - 1, depth), Depth(v.items[n - 1], depth + 1))
  }

  function DepthEntries(v: Json, n: nat, depth: nat): nat
    requires v.Object? && n <= |v.entries|
    decreases v, 0, n
  {
    if n == 0 then depth else Max(DepthEntries(v, n - 1, depth), Depth(v.entries[n - 1].value, depth + 1))
  }

  // --------------------------------------------------------------- canonical form

  /** Entries sorted by key at every level; this is `canonicalize` without its depth check. */
  function Norm(v: Json): Json
    decreases v, 1, 0
  {
    match v
    case Scalar(_) => v
    case Array(items) => Array(NormItems(v, |items|))
    case Object(entries) => Object(Sort(NormEntries(v, |entries|), KeyLeq))
  }

  function NormItems(v: Json, n: nat): (r: seq<Json>)
    requires v.Array? && n <= |v.items|
    ensures |r| == n
    decreases v, 0, n
  {
    if n == 0 then [] else NormItems(v, n - 1) + [Norm(v.items[n - 1])]
  }

  function NormEntries(v: Json, n: nat): (r: seq<Entry>)
    requires v.Object? && n <= |v.entries|
    ensures |r| == n
    decreases v, 0, n
  {
    if n == 0 then [] else NormEntries(v, n - 1) + [Entry(v.entries[n - 1].key, Norm(v.entries[n - 1].value))]
  }

  /** Canonicalisation as the source does it: every level is checked against the depth bound first. */
  function Canonicalize(v: Json, depth: nat): Option<Json>
    decreases v, 1, 0
  {
    if depth > MAX_DEPTH then None
    else
      match v
      case Scalar(_) => Some(v)
      case Array(items) =>
        (match CanonItems(v, |items|, depth) case None => None case Some(out) => Some(Array(out)))
      case Object(entries) =>
        (match CanonEntries(v, |entries|, depth) case None => None case Some(out) => Some(Object(Sort(out, KeyLeq))))
  }

  function CanonItems(v: Json, n: nat, depth: nat): Option<seq<Json>>
    requires v.Array? && n <= |v.items|
    decreases v, 0, n
  {
    if n == 0 then Some([])
    else
      match CanonItems(v, n - 1, depth)
      case None => None
      case Some(front) =>
        match Canonicalize(v.items[n - 1], depth + 1)
        case None => None
        case Some(x) => Some(front + [x])
  }

  function CanonEntries(v: Json, n: nat, depth: nat): Option<seq<Entry>>
    requires v.Object? && n <= |v.entries|
    decreases v, 0, n
  {
    if n == 0 then Some([])
    else
      match CanonEntries(v, n - 1, depth)
      case None => None
      case Some(front) =>
        match Canonicalize(v.entries[n - 1].value, depth + 1)
        case None => None
        case Some(x) => Some(front + [Entry(v.entries[n - 1].key, x)])
  }

  lemma {:induction false} DepthAtLeast(v: Json, depth: nat)
    ensures depth <= Depth(v, depth)
    decreases v, 1, 0
  {
    match v {
      case Scalar(_) =>
      case Array(items) => DepthItemsAtLeast(v, |items|, depth);
      case Object(entries) => DepthEntriesAtLeast(v, |entries|, depth);
    }
  }

  lemma {:induction false} DepthItemsAtLeast(v: Json, n: nat, depth: nat)
    requires v.Array? && n <= |v.items|
    ensures depth <= DepthItems(v, n, depth)
    decreases v, 0, n
  {
    if n > 0 {
      DepthItemsAtLeast(v, n - 1, depth);
    }
  }

  lemma {:induction false} DepthEntriesAtLeast(v: Json, n: nat, depth: nat)
    requires v.Object? && n <= |v.entries|
    ensures depth <= DepthEntries(v, n, depth)
    decreases v, 0, n
  {
    if n > 0 {
      DepthEntriesAtLeast(v, n - 1, depth);
    }
  }

  /** Canonicalisation succeeds exactly when the depth is within the bound, and then gives the canonical form. */
  lemma {:induction false} CanonicalizeIff(v: Json, depth: nat)
    ensures Canonicalize(v, depth) == if Depth(v, depth) <= MAX_DEPTH then Some(Norm(v)) else None
    decreases v, 1, 0
  {
    DepthAtLeast(v, depth);
    if depth <= MAX_DEPTH {
      match v {
        case Scalar(_) =>
        case Array(items) => CanonItemsIff(v, |items|, depth);
        case Object(entries) => CanonEntriesIff(v, |entries|, depth);
      }
    }
  }

  lemma {:induction false} CanonItemsIff(v: Json, n: nat, depth: nat)
    requires v.Array? && n <= |v.items| && depth <= MAX_DEPTH
    ensures CanonItems(v, n, depth) == if DepthItems(v, n, depth) <= MAX_DEPTH then Some(NormItems(v, n)) else None
    decreases v, 0, n
  {
    if n > 0 {
      CanonItemsIff(v, n - 1, depth);
      CanonicalizeIff(v.items[n - 1], depth + 1);
    }
  }

  lemma {:induction false} CanonEntriesIff(v: Json, n: nat, depth: nat)
    requires v.Object? && n <= |v.entries| && depth <= MAX_DEPTH
    ensures CanonEntries(v, n, depth) == if DepthEntries(v, n, depth) <= MAX_DEPTH then Some(NormEntries(v, n)) else None
    decreases v, 0, n
  {
    if n > 0 {
      CanonEntriesIff(v, n - 1, depth);
      CanonicalizeIff(v.entries[n - 1].value, depth + 1);
    }
  }

  // ------------------------------------------------------------------- key order

  predicate DistinctKeys(es: seq<Entry>) {
    forall i, j :: 0 <= i < j < |es| ==> es[i].key != es[j].key
  }

  /** No object at any level repeats a key. */
  predicate WellFormed(v: Json) {
    match v
    case Scalar(_) => true
    case Array(items) => forall i :: 0 <= i < |items| ==> WellFormed(items[i])
    case Object(entries) => DistinctKeys(entries) && forall i :: 0 <= i < |entries| ==> WellFormed(entries[i].value)
  }

  /** Equal up to the order in which objects hold their entries. */
  ghost predicate Same(v: Json, w: Json) {
    match v
    case Scalar(_) => v == w
    case Array(items) => w.Array? && |items| == |w.items| && forall i :: 0 <= i < |items| ==> Same(items[i], w.items[i])
    case Object(entries) =>
      && w.Object?
      && (forall i :: 0 <= i < |entries| ==> HasLike(entries[i], w.entries))
      && (forall j :: 0 <= j < |w.entries| ==> HasKey(w.entries[j].key, entries))
  }

  /** Some entry has the key of `e` and a value equal to its value up to key order. */
  ghost predicate HasLike(e: Entry, es: seq<Entry>) {
    exists j :: 0 <= j < |es| && es[j].key == e.key && Same(e.value, es[j].value)
  }

  predicate HasKey(key: nat, es: seq<Entry>) {
    exists i :: 0 <= i < |es| && es[i].key == key
  }

  lemma {:induction false} NormItemAt(v: Json, n: nat, i: nat)
    requires v.Array? && i < n <= |v.items|
    ensures NormItems(v, n)[i] == Norm(v.items[i])
    decreases n
  {
    if i < n - 1 {
      NormItemAt(v, n - 1, i);
    }
  }

  lemma {:induction false} NormEntryAt(v: Json, n: nat, i: nat)
    requires v.Object? && i < n <= |v.entries|
    ensures NormEntries(v, n)[i] == Entry(v.entries[i].key, Norm(v.entries[i].value))
    decreases n
  {
    if i < n - 1 {
      NormEntryAt(v, n - 1, i);
    }
  }

  lemma {:induction false} LikeNone(es: seq<Entry>, x: Entry)
    requires forall i :: 0 <= i < |es| ==> es[i].key != x.key
    ensures Like(es, x, KeyLeq) == []
  {
    if es != [] {
      LikeNone(es[..|es| - 1], x);
    }
  }

  lemma {:induction false} LikeFound(es: seq<Entry>, i: nat, x: Entry)
    requires DistinctKeys(es) && i < |es| && es[i].key == x.key
    ensures Like(es, x, KeyLeq) == [es[i]]
    decreases |es|
  {
    var front := es[..|es| - 1];
    if i == |es| - 1 {
      LikeNone(front, x);
    } else {
      LikeFound(front, i, x);
    }
  }

  lemma NormKeys(v: Json)
    requires v.Object?
    ensures DistinctKeys(v.entries) <==> DistinctKeys(NormEntries(v, |v.entries|))
  {
    var es := NormEntries(v, |v.entries|);
    forall i | 0 <= i < |es| ensures es[i].key == v.entries[i].key { NormEntryAt(v, |v.entries|, i); }
  }

  lemma KeyLeqIsPreorder()
    ensures Preorder(KeyLeq)
  {
  }

  /** Entry lists with distinct keys sort to the same list if they hold the same entries. */
  lemma SameEntriesSameSort(a: seq<Entry>, b: seq<Entry>)
    requires DistinctKeys(a) && DistinctKeys(b)
    requires forall i :: 0 <= i < |a| ==> a[i] in b
    requires forall j :: 0 <= j < |b| ==> b[j] in a
    ensures Sort(a, KeyLeq) == Sort(b, KeyLeq)
  {
    hide Sort, Like;
    KeyLeqIsPreorder();
    forall x ensures Like(a, x, KeyLeq) == Like(b, x, KeyLeq) {
      if i :| 0 <= i < |a| && a[i].key == x.key {
        LikeFound(a, i, x);
        var j :| 0 <= j < |b| && b[j] == a[i];
        LikeFound(b, j, x);
      } else {
        LikeNone(a, x);
        forall j | 0 <= j < |b| ensures b[j].key != x.key {
          var i :| 0 <= i < |a| && a[i] == b[j];
        }
        LikeNone(b, x);
      }
    }
    SameSortIffSameClasses(a, b, KeyLeq);
  }

  lemma SortHolds(a: seq<Entry>, x: Entry)
    ensures x in Sort(a, KeyLeq) <==> x in a
  {
    KeyLeqIsPreorder();
    SortIsStable(a, KeyLeq);
    assert Like(Sort(a, KeyLeq), x, KeyLeq) == Like(a, x, KeyLeq);
    LikeIn(a, x, x, KeyLeq);
    LikeIn(Sort(a, KeyLeq), x, x, KeyLeq);
  }

  /** Values equal up to key order have the same canonical form. */
  lemma {:induction false} SameNorm(v: Json, w: Json)
    requires WellFormed(v) && WellFormed(w) && Same(v, w)
    ensures Norm(v) == Norm(w)
    decreases v
  {
    match v {
      case Scalar(_) =>
      case Array(items) =>
        hide NormItems;
        forall i | 0 <= i < |items| ensures NormItems(v, |items|)[i] == NormItems(w, |items|)[i] {
          NormItemAt(v, |items|, i);
          NormItemAt(w, |items|, i);
          SameNorm(items[i], w.items[i]);
        }
      case Object(entries) =>
        hide NormEntries, Sort;
        NormKeys(v);
        NormKeys(w);
        forall i | 0 <= i < |entries| ensures NormEntries(v, |entries|)[i] in NormEntries(w, |w.entries|) {
          assert HasLike(entries[i], w.entries);
          var j :| 0 <= j < |w.entries| && w.entries[j].key == entries[i].key && Same(entries[i].value, w.entries[j].value);
          SameNorm(entries[i].value, w.entries[j].value);
          NormEntryAt(v, |entries|, i);
          NormEntryAt(w, |w.entries|, j);
        }
        hide Same, WellFormed, Norm;
        Covered(v, w);
        SameEntriesSameSort(NormEntries(v, |entries|), NormEntries(w, |w.entries|));
        NormObject(v);
        NormObject(w);
    }
  }

  lemma NormObject(v: Json)
    requires v.Object?
    ensures Norm(v) == Object(Sort(NormEntries(v, |v.entries|), KeyLeq))
  {
  }

  lemma Covered(v: Json, w: Json)
    requires v.Object? && w.Object? && Same(v, w) && DistinctKeys(NormEntries(w, |w.entries|))
    requires forall i :: 0 <= i < |v.entries| ==> NormEntries(v, |v.entries|)[i] in NormEntries(w, |w.entries|)
    ensures forall j :: 0 <= j < |w.entries| ==> NormEntries(w, |w.entries|)[j] in NormEntries(v, |v.entries|)
  {
    hide NormEntries;
    var a, b := NormEntries(v, |v.entries|), NormEntries(w, |w.entries|);
    forall j | 0 <= j < |b| ensures b[j] in a {
      assert HasKey(w.entries[j].key, v.entries);
      var i :| 0 <= i < |v.entries| && v.entries[i].key == w.entries[j].key;
      NormEntryAt(v, |v.entries|, i);
      NormEntryAt(w, |w.entries|, j);
      var k :| 0 <= k < |b| && b[k] == a[i];
      assert b[k].key == b[j].key;
    }
  }

  /** And only those: the canonical form tells apart everything that differs beyond key order. */
  lemma {:induction false} NormSame(v: Json, w: Json)
    requires WellFormed(v) && WellFormed(w) && Norm(v) == Norm(w)
    ensures Same(v, w)
    decreases v
  {
    hide NormItems, NormEntries, Sort;
    match v {
      case Scalar(_) =>
      case Array(items) =>
        forall i | 0 <= i < |items| ensures Same(items[i], w.items[i]) {
          NormItemAt(v, |items|, i);
          NormItemAt(w, |items|, i);
          NormSame(items[i], w.items[i]);
        }
      case Object(entries) =>
        var a, b := NormEntries(v, |entries|), NormEntries(w, |w.entries|);
        forall i | 0 <= i < |entries| ensures HasLike(entries[i], w.entries) {
          SortHolds(a, a[i]);
          SortHolds(b, a[i]);
          var j :| 0 <= j < |b| && b[j] == a[i];
          NormEntryAt(v, |entries|, i);
          NormEntryAt(w, |w.entries|, j);
          NormSame(entries[i].value, w.entries[j].value);
        }
        forall j | 0 <= j < |w.entries| ensures HasKey(w.entries[j].key, entries) {
          SortHolds(a, b[j]);
          SortHolds(b, b[j]);
          var i :| 0 <= i < |a| && a[i] == b[j];
          NormEntryAt(v, |entries|, i);
          NormEntryAt(w, |w.entries|, j);
        }
    }
  }

  /** Within the depth bound, canonical forms agree exactly when the values do up to key order. */
  lemma CanonicalIgnoresKeyOrder(v: Json, w: Json)
    requires WellFormed(v) && WellFormed(w) && Canonicalize(v, 1).Some? && Canonicalize(w, 1).Some?
    ensures Canonicalize(v, 1) == Canonicalize(w, 1) <==> Same(v, w)
  {
    CanonicalizeIff(v, 1);
    CanonicalizeIff(w, 1);
    if Same(v, w) {
      SameNorm(v, w);
    } else if Norm(v) == Norm(w) {
      NormSame(v, w);
    }
  }

  // ----------------------------------------------------------------- idempotence

  lemma {:induction false} InsertDistinct(es: seq<Entry>, x: Entry)
    requires DistinctKeys(es) && !HasKey(x.key, es)
    ensures DistinctKeys(Insert(es, x, KeyLeq))
  {
    if es != [] && !KeyLeq(es[|es| - 1], x) {
      var front, last := es[..|es| - 1], es[|es| - 1];
      InsertDistinct(front, x);
      InsertMembers(front, x, KeyLeq);
      var out := Insert(front, x, KeyLeq);
      forall i | 0 <= i < |out| ensures out[i].key != last.key {
        assert out[i] in out;
        if out[i] != x {
          var j :| 0 <= j < |front| && front[j] == out[i];
        }
      }
    }
  }

  lemma {:induction false} SortDistinct(es: seq<Entry>)
    requires DistinctKeys(es)
    ensures DistinctKeys(Sort(es, KeyLeq))
  {
    if es != [] {
      var front, last := es[..|es| - 1], es[|es| - 1];
      SortDistinct(front);
      var out := Sort(front, KeyLeq);
      forall i | 0 <= i < |out| ensures out[i].key != last.key {
        SortHolds(front, out[i]);
        var j :| 0 <= j < |front| && front[j] == out[i];
      }
      InsertDistinct(out, last);
    }
  }

  /** The canonical form differs from the value in key order only. */
  lemma {:induction false} NormIsSame(v: Json)
    requires WellFormed(v)
    ensures Same(v, Norm(v)) && WellFormed(Norm(v))
    decreases v
  {
    hide NormItems, NormEntries, Sort;
    match v {
      case Scalar(_) =>
      case Array(items) =>
        forall i | 0 <= i < |items| ensures Same(items[i], NormItems(v, |items|)[i]) && WellFormed(NormItems(v, |items|)[i]) {
          NormItemAt(v, |items|, i);
          NormIsSame(items[i]);
        }
      case Object(entries) =>
        var a := NormEntries(v, |entries|);
        var out := Sort(a, KeyLeq);
        NormKeys(v);
        SortDistinct(a);
        forall i | 0 <= i < |entries| ensures HasLike(entries[i], out) {
          NormEntryAt(v, |entries|, i);
          NormIsSame(entries[i].value);
          SortHolds(a, a[i]);
          var j :| 0 <= j < |out| && out[j] == a[i];
        }
        forall j | 0 <= j < |out| ensures HasKey(out[j].key, entries) && WellFormed(out[j].value) {
          SortHolds(a, out[j]);
          var i :| 0 <= i < |a| && a[i] == out[j];
          NormEntryAt(v, |entries|, i);
          NormIsSame(entries[i].value);
        }
    }
  }

  /** The keys of every object of the value increase. */
  predicate KeysIncrease(v: Json) {
    match v
    case Scalar(_) => true
    case Array(items) => forall i :: 0 <= i < |items| ==> KeysIncrease(items[i])
    case Object(entries) =>
      && (forall i, j :: 0 <= i < j < |entries| ==> entries[i].key < entries[j].key)
      && forall i :: 0 <= i < |entries| ==> KeysIncrease(entries[i].value)
  }

  lemma SortedKeys(es: seq<Entry>, i: nat, j: nat)
    requires DistinctKeys(es) && i < j < |Sort(es, KeyLeq)|
    ensures Sort(es, KeyLeq)[i].key < Sort(es, KeyLeq)[j].key
  {
    KeyLeqIsPreorder();
    SortIsStable(es, KeyLeq);
    SortDistinct(es);
    hide Sort;
    assert KeyLeq(Sort(es, KeyLeq)[i], Sort(es, KeyLeq)[j]);
  }

  lemma {:induction false} NormIncreases(v: Json)
    requires WellFormed(v)
    ensures KeysIncrease(Norm(v))
    decreases v
  {
    hide NormItems, NormEntries, Sort;
    match v {
      case Scalar(_) =>
      case Array(items) =>
        forall i | 0 <= i < |items| ensures KeysIncrease(NormItems(v, |items|)[i]) {
          NormItemAt(v, |items|, i);
          NormIncreases(items[i]);
        }
      case Object(entries) =>
        var a := NormEntries(v, |entries|);
        var out := Sort(a, KeyLeq);
        NormKeys(v);
        forall i, j | 0 <= i < j < |out| ensures out[i].key < out[j].key {
          SortedKeys(a, i, j);
        }
        forall j | 0 <= j < |out| ensures KeysIncrease(out[j].value) {
          SortHolds(a, out[j]);
          var i :| 0 <= i < |a| && a[i] == out[j];
          NormEntryAt(v, |entries|, i);
          NormIncreases(entries[i].value);
        }
    }
  }

  /** At every level of a canonical value the keys increase. */
  lemma CanonicalKeysIncrease(v: Json)
    requires WellFormed(v) && Canonicalize(v, 1).Some?
    ensures KeysIncrease(Canonicalize(v, 1).value)
  {
    CanonicalizeIff(v, 1);
    NormIncreases(v);
  }

  lemma {:induction false} DepthItemsIff(v: Json, n: nat, depth: nat, bound: nat)
    requires v.Array? && n <= |v.items|
    ensures DepthItems(v, n, depth) <= bound <==>
              depth <= bound && forall i :: 0 <= i < n ==> Depth(v.items[i], depth + 1) <= bound
    decreases n
  {
    if n > 0 {
      DepthItemsIff(v, n - 1, depth, bound);
    }
  }

  lemma {:induction false} DepthEntriesIff(v: Json, n: nat, depth: nat, bound: nat)
    requires v.Object? && n <= |v.entries|
    ensures DepthEntries(v, n, depth) <= bound <==>
              depth <= bound && forall i :: 0 <= i < n ==> Depth(v.entries[i].value, depth + 1) <= bound
    decreases n
  {
    if n > 0 {
      DepthEntriesIff(v, n - 1, depth, bound);
    }
  }

  /** Reordering keys does not deepen a value. */
  lemma {:induction false} SameDepth(v: Json, w: Json, depth: nat, bound: nat)
    requires WellFormed(w) && Same(v, w) && Depth(v, depth) <= bound
    ensures Depth(w, depth) <= bound
    decreases v
  {
    hide DepthItems, DepthEntries;
    match v {
      case Scalar(_) =>
      case Array(items) =>
        DepthItemsIff(v, |items|, depth, bound);
        DepthItemsIff(w, |items|, depth, bound);
        forall i | 0 <= i < |items| ensures Depth(w.items[i], depth + 1) <= bound {
          SameDepth(items[i], w.items[i], depth + 1, bound);
        }
      case Object(entries) =>
        DepthEntriesIff(v, |entries|, depth, bound);
        DepthEntriesIff(w, |w.entries|, depth, bound);
        forall j | 0 <= j < |w.entries| ensures Depth(w.entries[j].value, depth + 1) <= bound {
          var i := LikeOf(v, w, j);
          SameDepth(entries[i].value, w.entries[j].value, depth + 1, bound);
        }
    }
  }

  lemma LikeOf(v: Json, w: Json, j: nat) returns (i: nat)
    requires v.Object? && w.Object? && WellFormed(w) && Same(v, w) && j < |w.entries|
    ensures i < |v.entries| && Same(v.entries[i].value, w.entries[j].value)
  {
    assert HasKey(w.entries[j].key, v.entries);
    i :| 0 <= i < |v.entries| && v.entries[i].key == w.entries[j].key;
    assert HasLike(v.entries[i], w.entries);
    var k :| 0 <= k < |w.entries| && w.entries[k].key == v.entries[i].key && Same(v.entries[i].value, w.entries[k].value);
    assert k == j;
  }

  /** Canonicalising a canonical value changes nothing. */
  lemma CanonicalizeTwice(v: Json)
    requires WellFormed(v) && Canonicalize(v, 1).Some?
    ensures Canonicalize(Canonicalize(v, 1).value, 1) == Canonicalize(v, 1)
  {
    CanonicalizeIff(v, 1);
    CanonicalizeIff(Norm(v), 1);
    NormIsSame(v);
    SameNorm(v, Norm(v));
    SameDepth(v, Norm(v), 1, MAX_DEPTH);
  }

  // ------------------------------------------------------------ the hashed bytes

  /** The ASCII bytes of "tea-mcp-descriptor-v1" and a zero byte. */
  const DOMAIN: Bytes := [116, 101, 97, 45, 109, 99, 112, 45, 100, 101, 115, 99, 114, 105, 112, 116, 111, 114, 45, 118, 49, 0]

  /** `n` as `k` big-endian bytes. */
  function BigEndian(n: nat, k: nat): (r: Bytes)
    ensures |r| == k
  {
    if k == 0 then [] else BigEndian(n / 256, k - 1) + [(n % 256) as byte]
  }

  function Value(bytes: Bytes): nat {
    if bytes == [] then 0 else Value(bytes[..|bytes| - 1]) * 256 + bytes[|bytes| - 1] as nat
  }

  function Power(k: nat): nat {
    if k == 0 then 1 else 256 * Power(k - 1)
  }

  lemma {:induction false} BigEndianValue(n: nat, k: nat)
    requires n < Power(k)
    ensures Value(BigEndian(n, k)) == n
  {
    if k > 0 {
      BigEndianValue(n / 256, k - 1);
      assert BigEndian(n, k)[..k - 1] == BigEndian(n / 256, k - 1);
    }
  }

  lemma EightBytes()
    ensures Power(8) == USIZE_MAX + 1
  {
    assert Power(1) == 256 && Power(2) == 65536 && Power(3) == 0x100_0000 && Power(4) == 0x1_0000_0000;
    assert Power(5) == 0x100_0000_0000 && Power(6) == 0x1_0000_0000_0000 && Power(7) == 0x100_0000_0000_0000;
  }

  /** What is hashed for a descriptor and a host policy. */
  function Preimage(descriptor: Bytes, policy: Bytes): Bytes {
    DOMAIN + BigEndian(|descriptor|, 8) + descriptor + BigEndian(|policy|, 8) + policy
  }

  /** Different pairs of documents never hash the same bytes. */
  lemma PreimageInjective(d: Bytes, p: Bytes, d': Bytes, p': Bytes)
    requires |d| <= USIZE_MAX && |p| <= USIZE_MAX && |d'| <= USIZE_MAX && |p'| <= USIZE_MAX
    requires Preimage(d, p) == Preimage(d', p')
    ensures d == d' && p == p'
  {
    hide BigEndian;
    EightBytes();
    BigEndianValue(|d|, 8);
    BigEndianValue(|d'|, 8);
    BigEndianValue(|p|, 8);
    BigEndianValue(|p'|, 8);
    Sections(d, p);
    Sections(d', p');
  }

  lemma Sections(d: Bytes, p: Bytes)
    ensures
      var all, n := Preimage(d, p), |DOMAIN|;
      && |all| == n + 16 + |d| + |p| && all[n..n + 8] == BigEndian(|d|, 8)
      && all[n + 8..n + 8 + |d|] == d && all[n + 8 + |d|..n + 16 + |d|] == BigEndian(|p|, 8) && all[n + 16 + |d|..] == p
  {
  }

  ghost predicate Injective(enc: Json -> Bytes) {
    forall v, w :: enc(v) == enc(w) ==> v == w
  }

  /** A document's canonical form, encoded, unless it nests too deep or is longer than `max` bytes. */
  function CanonicalBytes(v: Json, enc: Json -> Bytes, max: nat): Option<Bytes> {
    match Canonicalize(v, 1)
    case None => None
    case Some(c) => if |enc(c)| > max then None else Some(enc(c))
  }

  /** What is hashed for two documents. */
  function Hashed(descriptor: Json, policy: Json, enc: Json -> Bytes, max: nat): Option<Bytes> {
    match (CanonicalBytes(descriptor, enc, max), CanonicalBytes(policy, enc, max))
    case (Some(d), Some(p)) => Some(Preimage(d, p))
    case _ => None
  }

  /** The hashed bytes are the same exactly when both documents are equal up to key order. */
  lemma HashedAlike(d: Json, p: Json, d': Json, p': Json, enc: Json -> Bytes, max: nat)
    requires WellFormed(d) && WellFormed(p) && WellFormed(d') && WellFormed(p') && Injective(enc) && max <= USIZE_MAX
    requires Hashed(d, p, enc, max).Some? && Hashed(d', p', enc, max).Some?
    ensures Hashed(d, p, enc, max) == Hashed(d', p', enc, max) <==> Same(d, d') && Same(p, p')
  {
    hide WellFormed, Same, Canonicalize, Preimage;
    CanonicalIgnoresKeyOrder(d, d');
    CanonicalIgnoresKeyOrder(p, p');
    if Hashed(d, p, enc, max) == Hashed(d', p', enc, max) {
      PreimageInjective(CanonicalBytes(d, enc, max).value, CanonicalBytes(p, enc, max).value,
                        CanonicalBytes(d', enc, max).value, CanonicalBytes(p', enc, max).value);
    }
  }
}

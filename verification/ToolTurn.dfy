/**
 How one model turn's classified tool calls are walked: allowed calls gather in a
 batch, every other entry flushes the batch first, and an approval request ends
 the walk.  The source clears the batch after flushing for a rejected call but not
 for a denied one; `clearOnDeny` selects that line, `false` being the source.
*/
module ToolTurn {

  datatype Class = Allowed | Denied | Rejected | Ask

  /** Classification stops at the first approval request. */
  predicate Classified(cs: seq<Class>) {
    forall i :: 0 <= i < |cs| - 1 ==> cs[i] != Ask
  }

  predicate Paused(cs: seq<Class>) {
    cs != [] && cs[|cs| - 1].Ask?
  }

  /** Indices in the batch after the first `n` entries. */
  function Batch(cs: seq<Class>, n: nat, clearOnDeny: bool): seq<nat>
    requires n <= |cs|
  {
    if n == 0 then []
    else
      match cs[n - 1]
      case Allowed => Batch(cs, n - 1, clearOnDeny) + [n - 1]
      case Rejected => []
      case Denied => if clearOnDeny then [] else Batch(cs, n - 1, clearOnDeny)
      case Ask => Batch(cs, n - 1, clearOnDeny)
  }

  /** Call indices flushed, refused or paused on by the first `n` entries, in order. */
  function Handled(cs: seq<Class>, n: nat, clearOnDeny: bool): seq<nat>
    requires n <= |cs|
  {
    if n == 0 then []
    else if cs[n - 1].Allowed? then Handled(cs, n - 1, clearOnDeny)
    else Handled(cs, n - 1, clearOnDeny) + Batch(cs, n - 1, clearOnDeny) + [n - 1]
  }

  /** The whole turn: all entries, and a final flush unless the turn paused. */
  function Turn(cs: seq<Class>, clearOnDeny: bool): seq<nat> {
    Handled(cs, |cs|, clearOnDeny) + if Paused(cs) then [] else Batch(cs, |cs|, clearOnDeny)
  }

  function Upto(n: nat): seq<nat> {
    if n == 0 then [] else Upto(n - 1) + [n - 1]
  }

  /** How often `k` occurs in `s`. */
  function Times(s: seq<nat>, k: nat): nat {
    if s == [] then 0 else Times(s[..|s| - 1], k) + if s[|s| - 1] == k then 1 else 0
  }

  lemma {:induction false} TimesAppend(a: seq<nat>, b: seq<nat>, k: nat)
    ensures Times(a + b, k) == Times(a, k) + Times(b, k)
    decreases |b|
  {
    if b == [] {
      assert a + b == a;
    } else {
      var front := b[..|b| - 1];
      assert (a + b)[..|a + b| - 1] == a + front;
      TimesAppend(a, front, k);
    }
  }

  lemma {:induction false} TimesIn(s: seq<nat>, k: nat)
    ensures k in s <==> Times(s, k) > 0
  {
    if s != [] {
      TimesIn(s[..|s| - 1], k);
    }
  }

  lemma TimesOne(i: nat, k: nat)
    ensures Times([i], k) == if i == k then 1 else 0
  {
    assert [i][..0] == [];
  }

  // -------------------------------------------------- clearing on every flush

  lemma {:induction false} ClearingWalk(cs: seq<Class>, n: nat)
    requires n <= |cs| && forall i :: 0 <= i < n ==> !cs[i].Ask?
    ensures Handled(cs, n, true) + Batch(cs, n, true) == Upto(n)
  {
    if n > 0 {
      ClearingWalk(cs, n - 1);
      var before, batch := Handled(cs, n - 1, true), Batch(cs, n - 1, true);
      assert before + batch + [n - 1] == before + (batch + [n - 1]);
    }
  }

  lemma TurnParts(cs: seq<Class>, clearOnDeny: bool)
    ensures !Paused(cs) ==> Turn(cs, clearOnDeny) == Handled(cs, |cs|, clearOnDeny) + Batch(cs, |cs|, clearOnDeny)
    ensures Paused(cs) ==>
              var n := |cs| - 1;
              && Turn(cs, clearOnDeny) == Handled(cs, n, clearOnDeny) + Batch(cs, n, clearOnDeny) + [n]
              && Upto(|cs|) == Upto(n) + [n]
  {
  }

  /** If both arms cleared the batch, every call would be handled exactly once and in source order. */
  lemma ClearingHandlesOnceInOrder(cs: seq<Class>)
    requires Classified(cs)
    ensures Turn(cs, true) == Upto(|cs|)
  {
    TurnParts(cs, true);
    hide Turn, Handled, Batch, Upto;
    if Paused(cs) {
      ClearingWalk(cs, |cs| - 1);
    } else {
      ClearingWalk(cs, |cs|);
    }
  }

  // ------------------------------------------------------------- as written

  /** Whether no entry from `i` up to `n` is rejected. */
  predicate NoRejection(cs: seq<Class>, i: nat, n: nat)
    requires n <= |cs|
  {
    forall j :: i <= j < n ==> !cs[j].Rejected?
  }

  /** Denied entries from `i` up to `n` that no rejected entry from `i` on precedes. */
  function Denials(cs: seq<Class>, i: nat, n: nat): nat
    requires n <= |cs|
  {
    if n <= i then 0
    else Denials(cs, i, n - 1) + if cs[n - 1].Denied? && NoRejection(cs, i, n - 1) then 1 else 0
  }

  lemma {:induction false} BatchContents(cs: seq<Class>, n: nat, k: nat)
    requires n <= |cs|
    ensures Times(Batch(cs, n, false), k) ==
              if k < n && cs[k].Allowed? && NoRejection(cs, k + 1, n) then 1 else 0
  {
    if n > 0 {
      BatchContents(cs, n - 1, k);
      TimesAppend(Batch(cs, n - 1, false), [n - 1], k);
      TimesOne(n - 1, k);
    }
  }

  lemma HandledStep(cs: seq<Class>, n: nat, k: nat)
    requires 0 < n <= |cs|
    ensures Times(Handled(cs, n, false), k) ==
              Times(Handled(cs, n - 1, false), k) +
              if cs[n - 1].Allowed? then 0 else Times(Batch(cs, n - 1, false), k) + if k == n - 1 then 1 else 0
  {
    var before, batch := Handled(cs, n - 1, false), Batch(cs, n - 1, false);
    TimesAppend(before, batch, k);
    TimesAppend(before + batch, [n - 1], k);
    TimesOne(n - 1, k);
  }

  lemma {:induction false} Multiplicity(cs: seq<Class>, n: nat, k: nat)
    requires n <= |cs| && forall i :: 0 <= i < n ==> !cs[i].Ask?
    ensures Times(Handled(cs, n, false), k) + Times(Batch(cs, n, false), k) ==
              if k >= n then 0 else 1 + if cs[k].Allowed? then Denials(cs, k + 1, n) else 0
  {
    if n > 0 {
      Multiplicity(cs, n - 1, k);
      HandledStep(cs, n, k);
      BatchContents(cs, n - 1, k);
      BatchContents(cs, n, k);
      DenialsStep(cs, k + 1, n);
    }
  }

  lemma DenialsStep(cs: seq<Class>, i: nat, n: nat)
    requires 0 < n <= |cs|
    ensures i < n ==>
      Denials(cs, i, n) == Denials(cs, i, n - 1) + if cs[n - 1].Denied? && NoRejection(cs, i, n - 1) then 1 else 0
    ensures i < n ==> (NoRejection(cs, i, n) <==> NoRejection(cs, i, n - 1) && !cs[n - 1].Rejected?)
    ensures n <= i ==> Denials(cs, i, n) == 0 && NoRejection(cs, i, n)
  {
  }

  /**
   Without the clearing line, and if no flush ever failed, an allowed call would be
   flushed once plus once more for every denied call that follows it before the next
   rejected one; every other call would be handled once.  The walk that stops at a
   refused flush is `Attempts` below.
  */
  lemma FlushMultiplicity(cs: seq<Class>, k: nat)
    requires Classified(cs) && k < |cs|
    ensures Times(Turn(cs, false), k) == 1 + if cs[k].Allowed? then Denials(cs, k + 1, |cs|) else 0
  {
    TurnParts(cs, false);
    DenialsStep(cs, k + 1, |cs|);
    hide Turn, Handled, Batch, Times;
    if Paused(cs) {
      var n := |cs| - 1;
      Multiplicity(cs, n, k);
      TimesAppend(Handled(cs, n, false), Batch(cs, n, false), k);
      TimesAppend(Handled(cs, n, false) + Batch(cs, n, false), [n], k);
      TimesOne(n, k);
    } else {
      Multiplicity(cs, |cs|, k);
      TimesAppend(Handled(cs, |cs|, false), Batch(cs, |cs|, false), k);
    }
  }

  /** Entry `k` is an allowed call, `j` a later denied one, and no rejected call lies between. */
  predicate ReflushAt(cs: seq<Class>, k: nat, j: nat) {
    k < j < |cs| && cs[k].Allowed? && cs[j].Denied? && NoRejection(cs, k + 1, j)
  }

  ghost predicate Reflushes(cs: seq<Class>, n: nat) {
    exists k: nat, j: nat :: ReflushAt(cs, k, j) && j < n
  }

  lemma {:induction false} SomeDenial(cs: seq<Class>, i: nat, j: nat, n: nat)
    requires i <= j < n <= |cs| && cs[j].Denied? && NoRejection(cs, i, j)
    ensures Denials(cs, i, n) > 0
  {
    if j < n - 1 {
      SomeDenial(cs, i, j, n - 1);
    }
  }

  lemma BatchThenDenied(cs: seq<Class>, n: nat, k: nat)
    requires n < |cs| && cs[n].Denied? && k in Batch(cs, n, false)
    ensures Reflushes(cs, n + 1)
  {
    TimesIn(Batch(cs, n, false), k);
    BatchContents(cs, n, k);
    assert ReflushAt(cs, k, n);
  }

  lemma {:induction false} CleanWalk(cs: seq<Class>, n: nat)
    requires n <= |cs| && forall i :: 0 <= i < n ==> !cs[i].Ask?
    requires !Reflushes(cs, n)
    ensures Handled(cs, n, false) + Batch(cs, n, false) == Upto(n)
  {
    if n > 0 {
      CleanWalk(cs, n - 1);
      var before, batch := Handled(cs, n - 1, false), Batch(cs, n - 1, false);
      assert before + batch + [n - 1] == before + (batch + [n - 1]);
      if cs[n - 1].Denied? && batch != [] {
        BatchThenDenied(cs, n - 1, batch[0]);
      }
    }
  }

  lemma {:induction false} UptoOnce(n: nat, k: nat)
    ensures Times(Upto(n), k) == if k < n then 1 else 0
  {
    if n > 0 {
      UptoOnce(n - 1, k);
      TimesAppend(Upto(n - 1), [n - 1], k);
      TimesOne(n - 1, k);
    }
  }

  /** The source handles every call exactly once, in source order, exactly when no reflush pattern occurs. */
  lemma HandlesOnceIffNoReflush(cs: seq<Class>)
    requires Classified(cs)
    ensures Turn(cs, false) == Upto(|cs|) <==> !Reflushes(cs, |cs|)
  {
    TurnParts(cs, false);
    hide Turn, Handled, Batch, Upto, NoRejection;
    if Reflushes(cs, |cs|) {
      var k: nat, j: nat :| ReflushAt(cs, k, j);
      ReflushRepeats(cs, k, j);
    } else if Paused(cs) {
      CleanWalk(cs, |cs| - 1);
    } else {
      CleanWalk(cs, |cs|);
    }
  }

  lemma ReflushRepeats(cs: seq<Class>, k: nat, j: nat)
    requires Classified(cs)
    requires ReflushAt(cs, k, j)
    ensures Turn(cs, false) != Upto(|cs|)
  {
    hide Turn, Upto, Times, Denials, NoRejection;
    FlushMultiplicity(cs, k);
    SomeDenial(cs, k + 1, j, |cs|);
    UptoOnce(|cs|, k);
  }

  /** The smallest failing turn: one allowed call, then one denied call, flushes the first call twice. */
  lemma AllowThenDenyReflushes()
    ensures Turn([Allowed, Denied], false) == [0, 1, 0]
  {
    var cs := [Allowed, Denied];
    assert Batch(cs, 1, false) == [0] && Handled(cs, 1, false) == [];
    assert Handled(cs, 2, false) == [0, 1] && Batch(cs, 2, false) == [0];
  }

  // --------------------------------------------------------- up to the refusal

  /** `tried` holds the calls of every attempted flush, refusal and pause; the walk dies at a refused flush. */
  datatype Walk = Walk(tried: seq<nat>, batch: seq<nat>, alive: bool)

  /** The store refuses a flush that holds a call it has already seen decided. */
  predicate Refused(w: Walk) {
    exists i <- w.batch :: i in w.tried
  }

  function Walked(cs: seq<Class>, n: nat): Walk
    requires n <= |cs|
  {
    if n == 0 then Walk([], [], true)
    else
      var w := Walked(cs, n - 1);
      if !w.alive then w
      else if cs[n - 1].Allowed? then w.(batch := w.batch + [n - 1])
      else if Refused(w) then Walk(w.tried + w.batch, w.batch, false)
      else Walk(w.tried + w.batch + [n - 1], if cs[n - 1].Rejected? then [] else w.batch, true)
  }

  /** Everything the source attempts in a turn, in order, with executions that succeed. */
  function Attempts(cs: seq<Class>): seq<nat> {
    var w := Walked(cs, |cs|);
    w.tried + if w.alive && !Paused(cs) then w.batch else []
  }

  lemma Disjoint(a: seq<nat>, b: seq<nat>, n: nat, i: nat)
    requires a + b == Upto(n) && i in b
    ensures i !in a
  {
    UptoOnce(n, i);
    TimesAppend(a, b, i);
    TimesIn(a, i);
    TimesIn(b, i);
  }

  lemma {:induction false} WalkedClean(cs: seq<Class>, n: nat)
    requires n <= |cs| && (forall i :: 0 <= i < n - 1 ==> !cs[i].Ask?) && !Reflushes(cs, n)
    ensures Walked(cs, n) == Walk(Handled(cs, n, false), Batch(cs, n, false), true)
  {
    if n > 0 {
      WalkedClean(cs, n - 1);
      CleanWalk(cs, n - 1);
      var before, batch := Handled(cs, n - 1, false), Batch(cs, n - 1, false);
      forall i <- batch ensures i !in before {
        Disjoint(before, batch, n - 1, i);
      }
    }
  }

  /** Entry `d` is the first denied call that leaves a flushed batch behind. */
  ghost predicate FirstReflush(cs: seq<Class>, d: nat) {
    d < |cs| && cs[d].Denied? && Batch(cs, d, false) != [] && !Reflushes(cs, d)
  }

  lemma ReflushFound(cs: seq<Class>, d: nat, n: nat)
    requires FirstReflush(cs, d)
    ensures d < n ==> Reflushes(cs, n)
  {
    BatchThenDenied(cs, d, Batch(cs, d, false)[0]);
  }

  /** The calls after `d` and before `p` are all allowed, and `p` is the next flush. */
  predicate NextFlush(cs: seq<Class>, d: nat, p: nat) {
    d < p <= |cs| && (forall i :: d < i < p ==> cs[i].Allowed?) && (p == |cs| || !cs[p].Allowed?)
  }

  /** The indices from `i` up to `n`. */
  function From(i: nat, n: nat): seq<nat> {
    if n <= i then [] else From(i, n - 1) + [n - 1]
  }

  lemma {:induction false} BatchGrows(cs: seq<Class>, d: nat, n: nat)
    requires d < n <= |cs| && cs[d].Denied? && forall i :: d < i < n ==> cs[i].Allowed?
    ensures Batch(cs, n, false) == Batch(cs, d, false) + From(d + 1, n)
  {
    if n > d + 1 {
      BatchGrows(cs, d, n - 1);
    }
  }

  lemma {:induction false} AfterReflush(cs: seq<Class>, d: nat, n: nat)
    requires Classified(cs) && FirstReflush(cs, d) && d < n <= |cs| && forall i :: d < i < n ==> cs[i].Allowed?
    ensures Walked(cs, n) == Walk(Upto(d + 1), Batch(cs, n, false), true)
  {
    if n == d + 1 {
      WalkedClean(cs, d);
      CleanWalk(cs, d);
      var before, batch := Handled(cs, d, false), Batch(cs, d, false);
      forall i <- batch ensures i !in before {
        Disjoint(before, batch, d, i);
      }
    } else {
      AfterReflush(cs, d, n - 1);
    }
  }

  lemma {:induction false} StaysDead(cs: seq<Class>, p: nat, n: nat)
    requires p <= n <= |cs| && !Walked(cs, p).alive
    ensures Walked(cs, n) == Walked(cs, p)
  {
    if n > p {
      StaysDead(cs, p, n - 1);
    }
  }

  lemma FlushedBefore(cs: seq<Class>, d: nat, i: nat)
    requires Classified(cs) && FirstReflush(cs, d) && i in Batch(cs, d, false)
    ensures i in Upto(d + 1)
  {
    CleanWalk(cs, d);
  }

  /**
   A reflush ends the turn: everything up to the denied call `d` is handled once and
   in order, then the next flush attempts the old batch again with the calls allowed
   since, is refused, and nothing later is ever tried.
  */
  lemma ReflushEndsTurn(cs: seq<Class>, d: nat, p: nat)
    requires Classified(cs) && FirstReflush(cs, d) && NextFlush(cs, d, p)
    ensures Attempts(cs) == Upto(d + 1) + Batch(cs, p, false)
    ensures Batch(cs, p, false) == Batch(cs, d, false) + From(d + 1, p)
  {
    AfterReflush(cs, d, p);
    BatchGrows(cs, d, p);
    FlushedBefore(cs, d, Batch(cs, d, false)[0]);
    if p < |cs| {
      hide Upto, Batch;
      assert Batch(cs, d, false)[0] in Batch(cs, p, false) && Refused(Walked(cs, p));
      StaysDead(cs, p + 1, |cs|);
    } else {
      assert !Paused(cs);
    }
  }

  /** How often each call is attempted: twice if it was flushed before the denial, and not at all after the refusal. */
  lemma AttemptCounts(cs: seq<Class>, d: nat, p: nat, k: nat)
    requires Classified(cs) && FirstReflush(cs, d) && NextFlush(cs, d, p)
    ensures Times(Attempts(cs), k) ==
              if k >= p then 0 else if k < d && cs[k].Allowed? && NoRejection(cs, k + 1, d) then 2 else 1
  {
    ReflushEndsTurn(cs, d, p);
    hide Attempts, Upto, Batch, Times;
    TimesAppend(Upto(d + 1), Batch(cs, p, false), k);
    UptoOnce(d + 1, k);
    BatchContents(cs, p, k);
    if k < d {
      assert NoRejection(cs, k + 1, p) <==> NoRejection(cs, k + 1, d);
    }
  }

  /** Without a reflush pattern the source attempts every call once and in order; with one, it cannot. */
  lemma AttemptsOnceIffNoReflush(cs: seq<Class>)
    requires Classified(cs)
    ensures Attempts(cs) == Upto(|cs|) <==> !Reflushes(cs, |cs|)
    ensures !Reflushes(cs, |cs|) ==> Attempts(cs) == Turn(cs, false)
  {
    if Reflushes(cs, |cs|) {
      var d, p := FindReflush(cs);
      var k := FlushedCall(cs, d);
      AttemptCounts(cs, d, p, k);
      UptoOnce(|cs|, k);
    } else {
      HandlesOnceIffNoReflush(cs);
      WalkedClean(cs, |cs|);
    }
  }

  lemma FlushedCall(cs: seq<Class>, d: nat) returns (k: nat)
    requires FirstReflush(cs, d)
    ensures k < d && cs[k].Allowed? && NoRejection(cs, k + 1, d)
  {
    k := Batch(cs, d, false)[0];
    TimesIn(Batch(cs, d, false), k);
    BatchContents(cs, d, k);
  }

  /** Every turn with a reflush pattern has a first one and a next flush. */
  lemma FindReflush(cs: seq<Class>) returns (d: nat, p: nat)
    requires Reflushes(cs, |cs|)
    ensures FirstReflush(cs, d) && NextFlush(cs, d, p)
  {
    d := 0;
    while !Reflushes(cs, d + 1)
      invariant d < |cs| && !Reflushes(cs, d)
      decreases |cs| - d
    {
      d := d + 1;
    }
    var k: nat, j: nat :| ReflushAt(cs, k, j) && j < d + 1;
    assert j == d;
    BatchContents(cs, d, k);
    TimesIn(Batch(cs, d, false), k);
    p := d + 1;
    while p < |cs| && cs[p].Allowed?
      invariant d < p <= |cs| && forall i :: d < i < p ==> cs[i].Allowed?
    {
      p := p + 1;
    }
  }

  /** The second denial of the smallest such turn is never reached. */
  lemma SecondDenialUnreached()
    ensures Attempts([Allowed, Denied, Denied]) == [0, 1, 0]
  {
    var cs := [Allowed, Denied, Denied];
    assert Walked(cs, 1) == Walk([], [0], true);
    assert Walked(cs, 2) == Walk([0, 1], [0], true);
    assert 0 in Walked(cs, 2).batch && Refused(Walked(cs, 2));
    assert Walked(cs, 3) == Walk([0, 1, 0], [0], false);
  }
}

/**
 Lane assignment for one batch of policy-allowed invocations, and the run of the
 lanes that collects results until the first execution error.
*/
module Scheduler {
  import opened Basics
  import opened SessionLog

  datatype SchedulerClass = ParallelReadOnly | ParallelRetrySafe | Serial | Exclusive | PolicyRequired

  datatype Invocation = Invocation(call: Call, kind: SchedulerClass)

  datatype Lane = Lane(kind: SchedulerClass, invocations: seq<Invocation>)

  predicate AllowsParallel(c: SchedulerClass) {
    c.ParallelReadOnly? || c.ParallelRetrySafe?
  }

  /** The lane group a class runs in: 0 parallel, 1 serial, 2 exclusive, 3 not schedulable. */
  function Group(c: SchedulerClass): nat {
    match c
    case ParallelReadOnly => 0
    case ParallelRetrySafe => 0
    case Serial => 1
    case Exclusive => 2
    case PolicyRequired => 3
  }

  function InGroup(batch: seq<Invocation>, g: nat): seq<Invocation> {
    if batch == [] then []
    else
      var last := batch[|batch| - 1];
      InGroup(batch[..|batch| - 1], g) + (if Group(last.kind) == g then [last] else [])
  }

  /** All invocations of a plan in the order the lanes are executed. */
  function Flatten(lanes: seq<Lane>): seq<Invocation> {
    if lanes == [] then [] else lanes[0].invocations + Flatten(lanes[1..])
  }

  predicate Schedulable(batch: seq<Invocation>) {
    forall v <- batch :: !v.kind.PolicyRequired?
  }

  /** Every lane follows one execution rule: parallel work shares a lane, exclusive work is alone. */
  predicate LaneOk(lane: Lane) {
    && lane.invocations != []
    && (forall v <- lane.invocations :: AllowsParallel(v.kind) <==> lane.kind.ParallelReadOnly?)
    && (forall v <- lane.invocations :: v.kind.Serial? <==> lane.kind.Serial?)
    && (forall v <- lane.invocations :: v.kind.Exclusive? <==> lane.kind.Exclusive?)
    && (lane.kind.Exclusive? ==> |lane.invocations| == 1)
  }

  /** Parallel work comes first and exclusive work last; there is one parallel lane and one serial lane at most. */
  predicate LanesOrdered(lanes: seq<Lane>) {
    forall i, j :: 0 <= i < j < |lanes| ==>
      lanes[j].kind.Exclusive? || (lanes[j].kind.Serial? && lanes[i].kind.ParallelReadOnly?)
  }

  lemma {:induction false} FlattenAppend(a: seq<Lane>, b: seq<Lane>)
    ensures Flatten(a + b) == Flatten(a) + Flatten(b)
    decreases |a|
  {
    if a == [] {
      assert a + b == b;
    } else {
      assert (a + b)[1..] == a[1..] + b;
      FlattenAppend(a[1..], b);
    }
  }

  lemma {:induction false} GroupFacts(batch: seq<Invocation>, g: nat)
    ensures forall v <- InGroup(batch, g) :: v in batch && Group(v.kind) == g
    ensures forall v <- batch :: Group(v.kind) == g ==> v in InGroup(batch, g)
  {
    if batch != [] {
      GroupFacts(batch[..|batch| - 1], g);
    }
  }

  lemma {:induction false} GroupsPartition(batch: seq<Invocation>)
    requires Schedulable(batch)
    ensures multiset(InGroup(batch, 0) + InGroup(batch, 1) + InGroup(batch, 2)) == multiset(batch)
  {
    if batch != [] {
      var front, last := batch[..|batch| - 1], batch[|batch| - 1];
      assert batch == front + [last];
      GroupsPartition(front);
    }
  }

  /**
   The plan: refused exactly when some invocation requires policy; otherwise a
   partition of the batch into at most one parallel lane, at most one serial lane
   and singleton exclusive lanes, executed in that order, each keeping source order.
  */
  method Plan(batch: seq<Invocation>) returns (lanes: Option<seq<Lane>>)
    ensures lanes.Some? <==> Schedulable(batch)
    ensures lanes.Some? ==> multiset(Flatten(lanes.value)) == multiset(batch)
    ensures lanes.Some? ==>
              Flatten(lanes.value) == InGroup(batch, 0) + InGroup(batch, 1) + InGroup(batch, 2)
    ensures lanes.Some? ==> LanesOk(lanes.value)
  {
    var parallel, serial, exclusive := [], [], [];
    for i := 0 to |batch|
      invariant Schedulable(batch[..i])
      invariant parallel == InGroup(batch[..i], 0)
      invariant serial == InGroup(batch[..i], 1)
      invariant exclusive == InGroup(batch[..i], 2)
    {
      assert batch[..i + 1][..i] == batch[..i];
      match batch[i].kind {
        case ParallelReadOnly => parallel := parallel + [batch[i]];
        case ParallelRetrySafe => parallel := parallel + [batch[i]];
        case Serial => serial := serial + [batch[i]];
        case Exclusive => exclusive := exclusive + [batch[i]];
        case PolicyRequired => return None;
      }
    }
    assert batch[..|batch|] == batch;
    GroupFacts(batch, 0);
    GroupFacts(batch, 1);
    GroupFacts(batch, 2);
    var out := Assemble(parallel, serial, exclusive);
    GroupsPartition(batch);
    return Some(out);
  }

  predicate LanesOk(lanes: seq<Lane>) {
    LanesOrdered(lanes) && forall lane <- lanes :: LaneOk(lane)
  }

  lemma OneLaneMore(lanes: seq<Lane>, lane: Lane)
    requires LanesOk(lanes) && LaneOk(lane)
    requires lane.kind.Exclusive? || (lane.kind.Serial? && forall other <- lanes :: other.kind.ParallelReadOnly?)
    ensures LanesOk(lanes + [lane]) && Flatten(lanes + [lane]) == Flatten(lanes) + lane.invocations
  {
    FlattenAppend(lanes, [lane]);
  }

  /** Turns the three groups into lanes. */
  method Assemble(parallel: seq<Invocation>, serial: seq<Invocation>, exclusive: seq<Invocation>)
    returns (lanes: seq<Lane>)
    requires forall v <- parallel :: Group(v.kind) == 0
    requires forall v <- serial :: Group(v.kind) == 1
    requires forall v <- exclusive :: Group(v.kind) == 2
    ensures Flatten(lanes) == parallel + serial + exclusive
    ensures LanesOk(lanes)
  {
    lanes := [];
    if parallel != [] {
      lanes := [Lane(ParallelReadOnly, parallel)];
    }
    assert Flatten(lanes) == parallel;
    if serial != [] {
      OneLaneMore(lanes, Lane(Serial, serial));
      lanes := lanes + [Lane(Serial, serial)];
    }
    assert Flatten(lanes) == parallel + serial;
    for i := 0 to |exclusive|
      invariant Flatten(lanes) == parallel + serial + exclusive[..i]
      invariant LanesOk(lanes)
    {
      hide LanesOk;
      OneLaneMore(lanes, Lane(Exclusive, [exclusive[i]]));
      assert exclusive[..i + 1] == exclusive[..i] + [exclusive[i]];
      lanes := lanes + [Lane(Exclusive, [exclusive[i]])];
    }
    assert exclusive[..|exclusive|] == exclusive;
  }

  // ------------------------------------------------------------- execution

  /** Invocations whose results are kept: everything before the first execution error. */
  function Collected(order: seq<Invocation>, exec: nat -> Option<Terminal>): seq<Invocation> {
    if order == [] || exec(order[0].call.id).None? then []
    else [order[0]] + Collected(order[1..], exec)
  }

  predicate Succeeds(vs: seq<Invocation>, exec: nat -> Option<Terminal>) {
    forall v <- vs :: exec(v.call.id).Some?
  }

  function Keys(vs: seq<Invocation>): set<nat> {
    set v <- vs :: v.call.id
  }

  lemma {:induction false} CollectedAll(order: seq<Invocation>, exec: nat -> Option<Terminal>)
    ensures Succeeds(order, exec) <==> Collected(order, exec) == order
    ensures !Succeeds(order, exec) ==> exists v <- order :: exec(v.call.id).None? && v !in Collected(order, exec)
    ensures Succeeds(Collected(order, exec), exec)
  {
    if order != [] && exec(order[0].call.id).Some? {
      CollectedAll(order[1..], exec);
    }
  }

  lemma {:induction false} CollectedExtend(a: seq<Invocation>, b: seq<Invocation>, exec: nat -> Option<Terminal>)
    ensures Succeeds(a, exec) ==> Collected(a + b, exec) == a + Collected(b, exec)
    ensures !Succeeds(a, exec) ==> Collected(a + b, exec) == Collected(a, exec)
    decreases |a|
  {
    if a == [] {
      assert a + b == b;
    } else {
      assert (a + b)[1..] == a[1..] + b;
      CollectedExtend(a[1..], b, exec);
    }
  }

  /**
   Runs the lanes in order.  A parallel lane executes all its invocations and then
   scans the outcomes in order; the other lanes stop at once.  Either way the
   results kept are those before the first error, and there is an error exactly
   when some scheduled invocation fails.
  */
  method ExecuteLanes(lanes: seq<Lane>, exec: nat -> Option<Terminal>) returns (ok: bool, results: map<nat, Terminal>)
    ensures ok <==> Succeeds(Flatten(lanes), exec)
    ensures results.Keys == Keys(Collected(Flatten(lanes), exec))
    ensures forall c <- results :: exec(c) == Some(results[c])
  {
    results := map[];
    for i := 0 to |lanes|
      invariant Succeeds(Flatten(lanes[..i]), exec)
      invariant results.Keys == Keys(Flatten(lanes[..i]))
      invariant forall c <- results :: exec(c) == Some(results[c])
    {
      var vs := lanes[i].invocations;
      var outcomes: seq<Option<Terminal>> := [];
      if AllowsParallel(lanes[i].kind) {
        outcomes := seq(|vs|, j requires 0 <= j < |vs| => exec(vs[j].call.id));
      }
      ghost var done := Flatten(lanes[..i]);
      for j := 0 to |vs|
        invariant Succeeds(done + vs[..j], exec)
        invariant results.Keys == Keys(done + vs[..j])
        invariant forall c <- results :: exec(c) == Some(results[c])
      {
        var outcome := if AllowsParallel(lanes[i].kind) then outcomes[j] else exec(vs[j].call.id);
        if outcome.None? {
          LaneFailure(lanes, i, j, exec);
          return false, results;
        }
        results := results[vs[j].call.id := outcome.value];
        assert vs[..j + 1] == vs[..j] + [vs[j]];
      }
      assert vs[..|vs|] == vs;
      assert lanes[..i + 1] == lanes[..i] + [lanes[i]];
      FlattenAppend(lanes[..i], [lanes[i]]);
      assert Flatten([lanes[i]]) == vs;
    }
    assert lanes[..|lanes|] == lanes;
    CollectedAll(Flatten(lanes), exec);
    ok := true;
  }

  /**
   The first error splits the schedule in two: what was collected before it, and the
   failing invocation with the rest of its lane and every later lane.
  */
  lemma LaneFailure(lanes: seq<Lane>, i: nat, j: nat, exec: nat -> Option<Terminal>)
    requires i < |lanes| && j < |lanes[i].invocations|
    requires Succeeds(Flatten(lanes[..i]) + lanes[i].invocations[..j], exec)
    requires exec(lanes[i].invocations[j].call.id).None?
    ensures !Succeeds(Flatten(lanes), exec)
    ensures Collected(Flatten(lanes), exec) == Flatten(lanes[..i]) + lanes[i].invocations[..j]
    ensures
      var left := [lanes[i].invocations[j]] + (lanes[i].invocations[j + 1..] + Flatten(lanes[i + 1..]));
      Flatten(lanes) == Collected(Flatten(lanes), exec) + left
  {
    var vs := lanes[i].invocations;
    var good := Flatten(lanes[..i]) + vs[..j];
    var rest := [vs[j]] + (vs[j + 1..] + Flatten(lanes[i + 1..]));
    assert lanes == lanes[..i] + lanes[i..];
    FlattenAppend(lanes[..i], lanes[i..]);
    assert vs == vs[..j] + [vs[j]] + vs[j + 1..];
    assert Flatten(lanes) == good + rest;
    CollectedExtend(good, rest, exec);
    assert rest[0] == vs[j];
    assert rest[0] in Flatten(lanes);
  }
}

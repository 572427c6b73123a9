/**
 The agent kernel's use of the session log: appending transactions, ending runs,
 flushing tool batches and walking the tool calls of one model turn.

 Every port may fail: `Port` stands for the clock, the id source, policy input
 construction and the event sink; an append can fail because the store is down.
 Ghost counters record such failures, so that contracts can speak of the failures
 of one call.  The kernel is the only writer of its session while it runs.
*/
module Kernel {
  import opened Basics
  import opened SessionLog
  import opened ToolRecords
  import opened Scheduler
  import opened RunCounters
  import opened RunEndings
  import opened CallOutcomes
  import TT = ToolTurn

  /** Call ids answered by tool-result messages, in log order. */
  function Answered(log: seq<Record>): seq<nat> {
    if log == [] then []
    else
      var last := log[|log| - 1];
      Answered(log[..|log| - 1]) +
      (if last.MessageCommitted? && last.message.ToolResult? then [last.message.call] else [])
  }

  function CallIds(calls: seq<Call>): seq<nat> {
    if calls == [] then [] else [calls[0].id] + CallIds(calls[1..])
  }

  function CallsOf(batch: seq<Invocation>): seq<Call> {
    seq(|batch|, i requires 0 <= i < |batch| => batch[i].call)
  }

  lemma {:induction false} AnsweredAppend(log: seq<Record>, rs: seq<Record>)
    ensures Answered(log + rs) == Answered(log) + Answered(rs)
    decreases |rs|
  {
    if rs == [] {
      assert log + rs == log;
    } else {
      var front := rs[..|rs| - 1];
      assert (log + rs)[..|log + rs| - 1] == log + front;
      AnsweredAppend(log, front);
    }
  }

  lemma {:induction false} StartsAnswerNothing(batch: seq<Call>)
    ensures Answered(StartRecords(batch)) == [] && Plain(StartRecords(batch))
    decreases |batch|
  {
    if batch != [] {
      var head := [PolicyDecisionRecorded(batch[0].id, Allow), ToolExecutionStarted(batch[0].id)];
      StartsAnswerNothing(batch[1..]);
      AnsweredAppend(head, StartRecords(batch[1..]));
      assert head[..1][..0] == [] && Answered(head[..1]) == [];
    }
  }

  lemma {:induction false} ResultsAnswerInOrder(batch: seq<Call>, terminals: map<nat, Terminal>, messages: seq<nat>)
    requires |messages| == |batch| && Ids(batch) <= terminals.Keys
    ensures Answered(ResultRecords(batch, terminals, messages)) == CallIds(batch)
    ensures Plain(ResultRecords(batch, terminals, messages))
    decreases |batch|
  {
    if batch != [] {
      var c := batch[0];
      var head := [ToolExecutionFinished(c.id, terminals[c.id]),
                   MessageCommitted(ToolResult(messages[0], c.id, c.name, terminals[c.id]))];
      var rest := ResultRecords(batch[1..], terminals, messages[1..]);
      ResultsAnswerInOrder(batch[1..], terminals, messages[1..]);
      AnsweredAppend(head, rest);
      assert head[..1][..0] == [] && Answered(head[..1]) == [];
      assert Answered(head) == [c.id];
    }
  }

  lemma {:induction false} InterruptsPlain(batch: seq<Call>)
    ensures Plain(InterruptRecords(batch)) && DecidesNothing(InterruptRecords(batch)) && Answered(InterruptRecords(batch)) == []
    decreases |batch|
  {
    if batch != [] {
      var head := [ToolExecutionInterrupted(batch[0].id)];
      InterruptsPlain(batch[1..]);
      AnsweredAppend(head, InterruptRecords(batch[1..]));
      assert head[..0] == [];
    }
  }

  lemma EndingAnswersNothing(log: seq<Record>, run: nat, turn: nat, cancelled: bool)
    ensures Answered(log + [EndingRecord(run, turn, cancelled)]) == Answered(log)
  {
    assert (log + [EndingRecord(run, turn, cancelled)])[..|log|] == log;
  }

  /** The log grew by records that close no turn. */
  predicate Grown(before: seq<Record>, after: seq<Record>) {
    before <= after && Plain(after[|before|..])
  }

  lemma GrownTrans(a: seq<Record>, b: seq<Record>, c: seq<Record>)
    requires Grown(a, b) && Grown(b, c)
    ensures Grown(a, c)
  {
    assert c[|a|..] == b[|a|..] + c[|b|..];
  }

  lemma GrownBy(a: seq<Record>, rs: seq<Record>)
    requires Plain(rs)
    ensures Grown(a, a + rs)
  {
    assert (a + rs)[|a|..] == rs;
  }

  /** After an execution error: collected calls stay started, all others are interrupted. */
  predicate Abandoned(s: State, batch: seq<Invocation>, exec: nat -> Option<Terminal>) {
    var kept := Keys(Collected(InGroup(batch, 0) + InGroup(batch, 1) + InGroup(batch, 2), exec));
    forall v <- batch :: if v.call.id in kept then Executing(s, v.call) else Uncertain(s, v.call.id)
  }

  lemma {:induction false} StartRecordsHonest(calls: seq<Call>, w: World)
    requires forall c <- calls :: w.verdict(c.id).Allowed?
    ensures forall r <- StartRecords(calls) :: HonestRecord(r, w, {})
    decreases |calls|
  {
    if calls != [] {
      assert calls[0] in calls && forall c <- calls[1..] :: c in calls;
      StartRecordsHonest(calls[1..], w);
    }
  }

  lemma StartsHonest(log: seq<Record>, calls: seq<Call>, w: World)
    requires Replay(log).Some? && Honest(Replay(log).value, w) && forall c <- calls :: w.verdict(c.id).Allowed?
    ensures
      var next := ApplyAll(Replay(log).value, StartRecords(calls));
      next.Some? ==> Honest(next.value, w)
  {
    StartRecordsHonest(calls, w);
    ReplayOk(log);
    hide Replay, Honest, StateOk, HonestRecord, ApplyAll;
    if ApplyAll(Replay(log).value, StartRecords(calls)).Some? {
      HonestAll(Replay(log).value, StartRecords(calls), w, {});
    }
  }

  lemma {:induction false} ResultRecordsHonest(calls: seq<Call>, results: map<nat, Terminal>, ids: seq<nat>, w: World)
    requires |ids| == |calls| && Ids(calls) <= results.Keys && forall c <- calls :: w.exec(c.id) == Some(results[c.id])
    ensures forall r <- ResultRecords(calls, results, ids) :: HonestRecord(r, w, {})
    decreases |calls|
  {
    if calls != [] {
      assert calls[0] in calls && forall c <- calls[1..] :: c in calls;
      ResultRecordsHonest(calls[1..], results, ids[1..], w);
    }
  }

  lemma ResultsHonest(log: seq<Record>, calls: seq<Call>, results: map<nat, Terminal>, ids: seq<nat>, w: World)
    requires Replay(log).Some? && Honest(Replay(log).value, w)
    requires |ids| == |calls| && Ids(calls) <= results.Keys && forall c <- calls :: w.exec(c.id) == Some(results[c.id])
    ensures
      var next := ApplyAll(Replay(log).value, ResultRecords(calls, results, ids));
      next.Some? ==> Honest(next.value, w)
  {
    ResultRecordsHonest(calls, results, ids, w);
    ReplayOk(log);
    hide Replay, Honest, StateOk, HonestRecord, ApplyAll;
    if ApplyAll(Replay(log).value, ResultRecords(calls, results, ids)).Some? {
      HonestAll(Replay(log).value, ResultRecords(calls, results, ids), w, {});
    }
  }

  lemma AllRan(log: seq<Record>, calls: seq<Call>, w: World)
    requires Replay(log).Some? && Honest(Replay(log).value, w) && AllSettled(Replay(log).value, calls)
    requires forall c <- calls :: w.verdict(c.id).Allowed?
    ensures forall c <- calls :: Ran(Replay(log).value, c.id, w)
  {
    AllServed(log, w);
    hide Replay, Honest, Ran;
    forall c <- calls ensures Ran(Replay(log).value, c.id, w) {
      assert Settled(Replay(log).value, c.id);
    }
  }

  lemma DenyHonest(log: seq<Record>, c: Call, terminal: Terminal, message: nat, w: World)
    requires Replay(log).Some? && Honest(Replay(log).value, w) && DecisionFor(w.verdict(c.id)) == Deny
    requires Fresh(Replay(log).value, c) && terminal.isError && message !in Replay(log).value.messageIds
    ensures
      var next := ApplyAll(Replay(log).value, DenyRecords(c, terminal, message));
      next.Some? ==> Honest(next.value, w)
  {
    ReplayOk(log);
    hide Replay, Honest, StateOk;
    DenyAccepted(Replay(log).value, c, terminal, message);
    hide ApplyAll, OnlyTools, Settled;
    HonestAll(Replay(log).value, DenyRecords(c, terminal, message), w, {c.id});
  }

  lemma WaitHonest(log: seq<Record>, c: Call, approval: nat, at: int, expires: int, run: nat, turn: nat, w: World)
    requires Replay(log).Some? && Honest(Replay(log).value, w) && w.verdict(c.id).Ask?
    ensures
      var next := ApplyAll(Replay(log).value, WaitRecords(c, approval, at, expires, run, turn));
      next.Some? ==> Honest(next.value, w)
  {
    ReplayOk(log);
    hide Replay, Honest, StateOk, ApplyAll;
    if ApplyAll(Replay(log).value, WaitRecords(c, approval, at, expires, run, turn)).Some? {
      HonestAll(Replay(log).value, WaitRecords(c, approval, at, expires, run, turn), w, {});
    }
  }

  function Invocations(calls: seq<Call>, kind: nat -> SchedulerClass): seq<Invocation> {
    seq(|calls|, i requires 0 <= i < |calls| => Invocation(calls[i], kind(calls[i].id)))
  }

  function Verdicts(calls: seq<Call>, verdict: nat -> TT.Class): seq<TT.Class> {
    seq(|calls|, i requires 0 <= i < |calls| => verdict(calls[i].id))
  }

  /** The classes are policy's verdicts on the calls. */
  predicate ByPolicy(vs: seq<Invocation>, cs: seq<TT.Class>, verdict: nat -> TT.Class) {
    |cs| <= |vs| && forall j :: 0 <= j < |cs| ==> cs[j] == verdict(vs[j].call.id)
  }

  class AgentKernel {
    /** The policy and the tools this kernel is connected to. */
    const world: World
    var log: seq<Record>
    /** Calls into any port that failed, transactions and loads included. */
    ghost var faults: nat
    /** Transactions and loads that failed for another reason than the reducer. */
    ghost var storeFaults: nat
    /** Loads that failed after their transaction was written. */
    ghost var loadFaults: nat
    /**
     The last failed call left its run without an ending: the store failed in the
     ending itself, or where the source returns without trying.
    */
    ghost var unended: bool

    ghost predicate Valid()
      reads this
    {
      Replay(log).Some? && Honest(Replay(log).value, world)
    }

    constructor (log: seq<Record>, world: World)
      requires Replay(log).Some? && Honest(Replay(log).value, world)
      ensures Valid() && this.log == log && this.world == world
    {
      this.log, this.world := log, world;
    }

    function St(): State
      requires Replay(log).Some?
      reads this
    {
      Replay(log).value
    }

    /** The log is only appended to, and failures are only added. */
    twostate predicate Steady()
      reads this
    {
      && old(log) <= log
      && 0 <= storeFaults - old(storeFaults) <= faults - old(faults)
      && 0 <= loadFaults - old(loadFaults) <= storeFaults - old(storeFaults)
    }

    /** Some port failed since the old state. */
    twostate predicate PortFailed()
      reads this
    {
      faults > old(faults)
    }

    /** Some transaction or load failed since the old state. */
    twostate predicate StoreFailed()
      reads this
    {
      storeFaults > old(storeFaults)
    }

    /** One call into the clock, the id source or the event sink. */
    method Port() returns (ok: bool)
      modifies this`faults
      ensures Steady() && (ok <==> !PortFailed())
    {
      ok := true;
      if * {
        ok, faults := false, faults + 1;
      }
    }

    /**
     A transaction: appended whole, or refused by the reducer or a failing store.  The
     session is loaded again after the append; when only that fails, the records are
     in the log although the call fails.
    */
    method AppendRecords(rs: seq<Record>) returns (ok: bool)
      requires Valid() && (ApplyAll(St(), rs).Some? ==> Honest(ApplyAll(St(), rs).value, world))
      modifies this`log, this`faults, this`storeFaults, this`loadFaults
      ensures Valid() && Steady()
      ensures ok ==> log == old(log) + rs
      ensures log == old(log) || (log == old(log) + rs && ApplyAll(old(St()), rs) == Some(St()))
      ensures ok ==> ApplyAll(old(St()), rs) == Some(St())
      ensures !ok && !StoreFailed() ==> log == old(log)
      ensures !ok && !StoreFailed() ==> rs == [] || ApplyAll(old(St()), rs).None?
      ensures if ok then !PortFailed() else (PortFailed() <==> StoreFailed())
      ensures !ok && log != old(log) <==> loadFaults > old(loadFaults)
    {
      if * {
        faults, storeFaults := faults + 1, storeFaults + 1;
        return false;
      }
      var next := ApplyAll(St(), rs);
      if rs == [] || next.None? {
        return false;
      }
      assert log != [];
      ReplayAppend(log, rs);
      log := log + rs;
      if * {
        faults, storeFaults, loadFaults := faults + 1, storeFaults + 1, loadFaults + 1;
        return false;
      }
      return true;
    }

    method NewMessageIds(n: nat) returns (ok: bool, ids: seq<nat>)
      requires Valid()
      modifies this`faults
      ensures Valid() && Steady() && (ok <==> !PortFailed())
      ensures ok ==> |ids| == n && FreshIds(St(), ids)
    {
      ok, ids := true, [];
      for i := 0 to n
        invariant Valid() && |ids| == i && FreshIds(St(), ids) && faults == old(faults)
      {
        ok := Port();
        if !ok {
          return;
        }
        var id := FreshId(St().messageIds + set x <- ids);
        ids := ids + [id];
      }
    }

    // ------------------------------------------------------------ run endings

    method RecordRunTerminal(run: nat, turn: Option<nat>, cancelled: bool) returns (ok: bool)
      requires Valid() && (turn.Some? || cancelled)
      modifies this`log, this`faults, this`storeFaults, this`loadFaults
      ensures Valid() && Steady() && Grown(old(log), log)
      ensures log == old(log) || log == old(log) + [EndingRecord(run, if turn.Some? then turn.value else 0, cancelled)]
      ensures !StoreFailed() && run !in old(St()).recovery ==>
                log == old(log) + [EndingRecord(run, if turn.Some? then turn.value else 0, cancelled)]
      ensures St() == old(St()).(recovery := St().recovery)
    {
      var r := EndingRecord(run, if turn.Some? then turn.value else 0, cancelled);
      assert ApplyAll(St(), [r]) == (match Apply(St(), r) case None => None case Some(s) => ApplyAll(s, []));
      GrownBy(log, [r]);
      HonestQuietly(log, [r], world);
      ok := AppendRecords([r]);
      if ok {
        ok := Port();
      }
    }

    /**
     Leaves exactly the log `Ended` describes, whatever failed before, unless its own
     load or transaction fails; then it writes nothing and the run has no ending.
    */
    method EnsureRunTerminal(run: nat, turn: nat, cancelled: bool) returns (ok: bool)
      requires Valid()
      modifies this
      ensures Valid() && Steady() && Grown(old(log), log)
      ensures log == old(log) || log == old(log) + [EndingRecord(run, turn, cancelled)]
      ensures !unended ==> log == Ended(old(log), run, turn, cancelled)
      ensures unended ==> log == old(log) && !AlreadyEnded(St(), run) && StoreFailed()
    {
      if * {
        faults, storeFaults, unended := faults + 1, storeFaults + 1, !AlreadyEnded(St(), run);
        return false;
      }
      if AlreadyEnded(St(), run) {
        unended := false;
        return true;
      }
      ok := RecordRunTerminal(run, Some(turn), cancelled);
      unended := log == old(log);
    }

    // ----------------------------------------------------------- tool batches

    /** Commits every result of a fully executed batch, in source order. */
    method CommitResults(calls: seq<Call>, results: map<nat, Terminal>) returns (ok: bool)
      requires Valid() && calls != [] && Distinct(calls) && Ids(calls) <= results.Keys
      requires forall c <- calls :: Executing(St(), c) && world.exec(c.id) == Some(results[c.id])
      modifies this`log, this`faults, this`storeFaults, this`loadFaults
      ensures Valid() && Steady() && Grown(old(log), log)
      ensures (ok <==> !PortFailed()) && (!ok ==> log == old(log) || loadFaults > old(loadFaults))
      ensures ok ==> log != old(log)
      ensures log != old(log) ==> OnlyTools(old(St()), St(), Ids(calls)) && AllSettled(St(), calls) && FinishedWith(St(), calls, results)
      ensures log != old(log) ==> Answered(log) == Answered(old(log)) + CallIds(calls)
    {
      var ids;
      ok, ids := NewMessageIds(|calls|);
      if !ok {
        return;
      }
      var rs := ResultRecords(calls, results, ids);
      ResultsAccepted(St(), calls, results, ids);
      ResultsAnswerInOrder(calls, results, ids);
      ResultsHonest(log, calls, results, ids, world);
      AnsweredAppend(log, rs);
      GrownBy(log, rs);
      ok := AppendRecords(rs);
    }

    /** Marks everything without a collected result as interrupted. */
    method InterruptRest(calls: seq<Call>, kept: set<nat>) returns (ok: bool)
      requires Valid() && Distinct(calls) && forall c <- calls :: Executing(St(), c)
      modifies this
      ensures Valid() && Steady() && Grown(old(log), log)
      ensures !ok ==> StoreFailed()
      ensures St().recovery == old(St()).recovery && St().pending == old(St()).pending && Answered(log) == Answered(old(log))
      ensures ok ==> forall c <- calls :: if c.id in kept then Executing(St(), c) else Uncertain(St(), c.id)
    {
      hide Honest, Answered, Replay;
      var rest := Without(calls, kept);
      WithoutFacts(calls, kept);
      if rest == [] {
        return true;
      }
      InterruptsAccepted(St(), rest);
      InterruptsPlain(rest);
      HonestQuietly(log, InterruptRecords(rest), world);
      AnsweredAppend(log, InterruptRecords(rest));
      GrownBy(log, InterruptRecords(rest));
      ok := AppendRecords(InterruptRecords(rest));
    }

    /** Commits the Allow decisions and durable starts of a batch, in source order. */
    method StartBatch(calls: seq<Call>) returns (ok: bool)
      requires Valid() && calls != [] && Distinct(calls) && (forall c <- calls :: Fresh(St(), c) || Settled(St(), c.id))
      requires forall c <- calls :: world.verdict(c.id).Allowed?
      modifies this
      ensures Valid() && Steady() && Grown(old(log), log) && Answered(log) == Answered(old(log))
      ensures ok ==> log != old(log)
      ensures log != old(log) ==> AllFresh(old(St()), calls) && OnlyTools(old(St()), St(), Ids(calls))
      ensures log != old(log) ==> forall c <- calls :: Executing(St(), c)
      ensures !ok ==> !AllFresh(old(St()), calls) || StoreFailed()
    {
      StartsAnswerNothing(calls);
      GrownBy(log, StartRecords(calls));
      AnsweredAppend(log, StartRecords(calls));
      ReplayOk(log);
      StartOutcome(St(), calls);
      StartsHonest(log, calls, world);
      ok := AppendRecords(StartRecords(calls));
    }

    /** Records the interruptions and the run's ending after an execution error. */
    method AbandonBatch(calls: seq<Call>, kept: set<nat>, run: nat, turn: nat, cancelled: bool)
      requires Valid() && Distinct(calls) && forall c <- calls :: Executing(St(), c)
      modifies this
      ensures Valid() && Steady() && Grown(old(log), log)
      ensures St().pending == old(St()).pending && Answered(log) == Answered(old(log))
      ensures unended <==> run !in St().recovery
      ensures unended ==> StoreFailed()
      ensures !StoreFailed() ==>
                forall c <- calls :: if c.id in kept then Executing(St(), c) else Uncertain(St(), c.id)
    {
      var interrupted := InterruptRest(calls, kept);
      if interrupted {
        label ended:
        var _ := RecordRunTerminal(run, Some(turn), cancelled);
        GrownTrans(old(log), old@ended(log), log);
        EndingAnswersNothing(old@ended(log), run, turn, cancelled);
        if log != old@ended(log) {
          assert log[..|log| - 1] == old@ended(log);
        }
      }
      unended := run !in St().recovery;
    }

    /** Runs the lanes of a started batch and commits all results, or abandons the batch. */
    method RunBatch(batch: seq<Invocation>, lanes: seq<Lane>, run: nat, turn: nat)
      returns (ok: bool)
      requires Valid() && batch != [] && Distinct(CallsOf(batch)) && multiset(Flatten(lanes)) == multiset(batch)
      requires forall c <- CallsOf(batch) :: Executing(St(), c)
      modifies this
      ensures Valid() && Steady() && Grown(old(log), log)
      ensures St().pending == old(St()).pending
      ensures Answered(log) == Answered(old(log)) || Answered(log) == Answered(old(log)) + CallIds(CallsOf(batch))
      ensures ok ==> Succeeds(batch, world.exec)
      ensures ok ==> OnlyTools(old(St()), St(), Ids(CallsOf(batch))) && AllSettled(St(), CallsOf(batch))
      ensures ok ==> Answered(log) == Answered(old(log)) + CallIds(CallsOf(batch))
      ensures !ok && !PortFailed() ==> !Succeeds(batch, world.exec)
      ensures !StoreFailed() && !Succeeds(batch, world.exec) ==> run in St().recovery
      ensures !StoreFailed() && !Succeeds(batch, world.exec) ==>
                forall c <- CallsOf(batch) ::
                  if c.id in Keys(Collected(Flatten(lanes), world.exec)) then Executing(St(), c) else Uncertain(St(), c.id)
    {
      hide Replay, Answered, CallIds, Distinct, AllSettled, Executing, Uncertain;
      var calls := CallsOf(batch);
      var done, results := ExecuteLanes(lanes, world.exec);
      SameMembers(batch, Flatten(lanes));
      if !done {
        var cancelled: bool := *;
        AbandonBatch(calls, results.Keys, run, turn, cancelled);
        return false;
      }
      ok := Port();
      if ok {
        CollectedAll(Flatten(lanes), world.exec);
        assert Ids(calls) <= results.Keys;  // so no call of the batch can lack its terminal
        ok := CommitResults(calls, results);
      }
    }

    /**
     Executes a batch of allowed calls and commits its results in source order.
     The store refuses a batch holding a call that was already decided, so such a
     batch fails before anything executes.
    */
    method FlushToolBatch(batch: seq<Invocation>, run: nat, turn: nat) returns (ok: bool)
      requires Valid() && Distinct(CallsOf(batch))
      requires forall c <- CallsOf(batch) :: Fresh(St(), c) || Settled(St(), c.id)
      requires forall c <- CallsOf(batch) :: world.verdict(c.id).Allowed?
      modifies this
      ensures Valid() && Steady() && Grown(old(log), log)
      ensures St().pending == old(St()).pending
      ensures Answered(log) == Answered(old(log)) || Answered(log) == Answered(old(log)) + CallIds(CallsOf(batch))
      ensures !AllFresh(old(St()), CallsOf(batch)) ==> !ok && log == old(log)
      ensures ok ==> AllFresh(old(St()), CallsOf(batch)) && Schedulable(batch) && Succeeds(batch, world.exec)
      ensures ok ==> OnlyTools(old(St()), St(), Ids(CallsOf(batch))) && AllSettled(St(), CallsOf(batch))
      ensures ok ==> Answered(log) == Answered(old(log)) + CallIds(CallsOf(batch))
      ensures ok ==> forall c <- CallsOf(batch) :: Ran(St(), c.id, world)
      ensures !ok && !PortFailed() ==>
                !Schedulable(batch) || !AllFresh(old(St()), CallsOf(batch)) || !Succeeds(batch, world.exec)
      ensures !StoreFailed() && Schedulable(batch) && AllFresh(old(St()), CallsOf(batch)) && !Succeeds(batch, world.exec) ==>
                Abandoned(St(), batch, world.exec) && run in St().recovery
    {
      var calls := CallsOf(batch);
      if batch == [] {
        return true;
      }
      var lanes := Plan(batch);
      if lanes.None? {
        return false;
      }
      ok := StartBatch(calls);
      if ok {
        label started:
        ok := RunBatch(batch, lanes.value, run, turn);
        GrownTrans(old(log), old@started(log), log);
        if ok {
          OnlyToolsTrans(old(St()), old@started(St()), St(), Ids(calls));
          AllRan(log, calls, world);
        }
        MembersAreCalls(batch);
      }
    }

    // ------------------------------------------------- refusals and approvals

    method CommitDenied(c: Call, terminal: Terminal) returns (ok: bool)
      requires Valid() && Fresh(St(), c) && terminal.isError && DecisionFor(world.verdict(c.id)) == Deny
      modifies this
      ensures Valid() && Steady() && Grown(old(log), log)
      ensures !ok ==> PortFailed()
      ensures ok ==> log != old(log)
      ensures log != old(log) ==> OnlyTools(old(St()), St(), {c.id}) && Settled(St(), c.id)
      ensures log != old(log) ==> Answered(log) == Answered(old(log)) + [c.id]
    {
      var ids;
      ok, ids := NewMessageIds(1);
      if !ok {
        return;
      }
      var rs := DenyRecords(c, terminal, ids[0]);
      DenyAccepted(St(), c, terminal, ids[0]);
      DenyHonest(log, c, terminal, ids[0], world);
      AnsweredAppend(log, rs);
      AnsweredThree(rs);
      GrownBy(log, rs);
      ok := AppendRecords(rs);
    }

    /** Persists an approval request and its wait checkpoint; a rejected event can still fail the pause. */
    method WaitForApproval(c: Call, run: nat, turn: nat) returns (ok: bool, approval: nat)
      requires Valid() && Fresh(St(), c) && world.verdict(c.id).Ask?
      modifies this
      ensures Valid() && Steady()
      ensures !ok ==> PortFailed()
      ensures ok ==> log != old(log)
      ensures log != old(log) ==> PausedLog(old(log), log, run, turn) && PausedState(old(St()), St(), c, approval, run, turn)
      ensures Answered(log) == Answered(old(log))
    {
      approval := FreshId(St().approvalIds);
      ok := Port();
      if !ok {
        return;
      }
      var at, expires: int :| at < expires;
      var rs := WaitRecords(c, approval, at, expires, run, turn);
      WaitFacts(log, St(), c, approval, at, expires, run, turn);
      WaitHonest(log, c, approval, at, expires, run, turn, world);
      ok := AppendRecords(rs);
      if ok {
        ok := Port();
      }
    }

    // ------------------------------------------------------------- tool turns

    /** Classifies calls in order, stopping after the first that needs an approval. */
    method Classify(classes: seq<TT.Class>) returns (ok: bool, cs: seq<TT.Class>)
      modifies this`faults
      ensures Steady() && (ok <==> !PortFailed())
      ensures ok ==> cs == UptoAsk(classes)
    {
      cs := [];
      var i := 0;
      while i < |classes|
        invariant 0 <= i <= |classes| && cs == classes[..i]
        invariant forall j :: 0 <= j < i ==> !classes[j].Ask?
        invariant faults == old(faults)
      {
        ok := Port();
        if !ok {
          return;
        }
        cs := cs + [classes[i]];
        if classes[i].Ask? {
          UptoAskIs(classes, i);
          return;
        }
        i := i + 1;
      }
      ok := true;
      UptoAskIs(classes, i);
    }

    /** Flushes the batch at entry `i`: `vs[g..e]` are leftovers of an earlier flush, `vs[f..i]` are new. */
    method FlushAt(vs: seq<Invocation>, batch: seq<Invocation>, ghost log0: seq<Record>, g: nat, e: nat, f: nat, i: nat,
                   run: nat, turn: nat) returns (ok: bool)
      requires Valid() && Distinct(CallsOf(vs)) && g <= e <= f <= i <= |vs| && batch == vs[g..e] + vs[f..i]
      requires forall v <- batch :: world.verdict(v.call.id).Allowed?
      requires WalkedTo(log0, log, CallsOf(vs), f)
      modifies this
      ensures Valid() && Steady() && Advanced(log0, log, CallsOf(vs))
      ensures g < e ==> !ok && log == old(log)
      ensures ok ==> g == e && WalkedTo(log0, log, CallsOf(vs), i) && AllRun(vs, f, i, world.exec)
      ensures !ok && !PortFailed() ==> g < e || !AllRun(vs, f, i, world.exec)
    {
      BatchParts(St(), vs, batch, g, e, f, i);
      MembersAreCalls(batch);
      ok := FlushToolBatch(batch, run, turn);
      FlushAdvances(log0, old(log), log, CallsOf(vs), f, i, g == e);
      if ok {
        WalkExtends(log0, old(log), log, CallsOf(vs), f, i);
        RunOfBatch(vs, f, i, world.exec);
      } else if !PortFailed() && g == e {
        RunOfBatch(vs, f, i, world.exec);
      }
    }

    /** A rejected or denied call: flush, then commit its refusal. */
    method RefuseAt(vs: seq<Invocation>, batch: seq<Invocation>, ghost log0: seq<Record>, g: nat, e: nat, f: nat, i: nat,
                    run: nat, turn: nat) returns (ok: bool)
      requires Valid() && Distinct(CallsOf(vs)) && g <= e <= f <= i < |vs| && batch == vs[g..e] + vs[f..i]
      requires (forall v <- batch :: world.verdict(v.call.id).Allowed?) && DecisionFor(world.verdict(vs[i].call.id)) == Deny
      requires WalkedTo(log0, log, CallsOf(vs), f)
      modifies this
      ensures Valid() && Steady() && Advanced(log0, log, CallsOf(vs))
      ensures g < e ==> !ok && log == old(log)
      ensures ok ==> g == e && WalkedTo(log0, log, CallsOf(vs), i + 1) && AllRun(vs, f, i, world.exec)
      ensures !ok && !PortFailed() ==> g < e || !AllRun(vs, f, i, world.exec)
    {
      hide Advanced, AllRun, WalkedTo, Distinct, Replay, Answered;
      ok := FlushAt(vs, batch, log0, g, e, f, i, run, turn);
      if !ok {
        return;
      }
      WalkedFresh(log0, log, CallsOf(vs), i);
      label flushed:
      var payload: nat := *;
      ok := CommitDenied(vs[i].call, Terminal(true, payload));
      if log != old@flushed(log) {
        WalkOne(log0, old@flushed(log), log, CallsOf(vs), i);
        WalkedAdvances(log0, log, CallsOf(vs), i + 1);
      }
    }

    /** A call that needs an approval: flush, then pause on it. */
    method PauseAt(vs: seq<Invocation>, batch: seq<Invocation>, ghost log0: seq<Record>, g: nat, e: nat, f: nat, i: nat,
                   run: nat, turn: nat) returns (ok: bool, approval: nat)
      requires Valid() && Distinct(CallsOf(vs)) && g <= e <= f <= i < |vs| && batch == vs[g..e] + vs[f..i]
      requires (forall v <- batch :: world.verdict(v.call.id).Allowed?) && world.verdict(vs[i].call.id).Ask?
      requires WalkedTo(log0, log, CallsOf(vs), f)
      modifies this
      ensures Valid() && Steady()
      ensures Advanced(log0, log, CallsOf(vs)) || PausedAt(log0, log, CallsOf(vs), i, approval, run, turn)
      ensures g < e ==> !ok && log == old(log)
      ensures ok ==> g == e && PausedAt(log0, log, CallsOf(vs), i, approval, run, turn) && AllRun(vs, f, i, world.exec)
      ensures !ok && !PortFailed() ==> g < e || !AllRun(vs, f, i, world.exec)
    {
      hide Advanced, AllRun, WalkedTo, Distinct, Replay, Answered, PausedAt, PausedLog, PausedState;
      approval := 0;
      ok := FlushAt(vs, batch, log0, g, e, f, i, run, turn);
      if !ok {
        return;
      }
      WalkedFresh(log0, log, CallsOf(vs), i);
      label flushed:
      ok, approval := WaitForApproval(vs[i].call, run, turn);
      if log != old@flushed(log) {
        WalkPaused(log0, old@flushed(log), log, CallsOf(vs), i, approval, run, turn);
      }
    }

    /**
     Walks the calls of one model turn.  `batch` is kept exactly as the source
     keeps it, so after a denied call it still holds calls that were flushed.
    */
    method ProcessToolTurn(calls: seq<Call>, run: nat, turn: nat) returns (outcome: TurnOutcome)
      requires Valid() && Distinct(calls) && AllFresh(St(), calls)
      modifies this
      ensures Valid() && Steady()
      ensures TurnResult(outcome, old(log), log, Invocations(calls, world.kind), UptoAsk(Verdicts(calls, world.verdict)),
                         world.exec, PortFailed(), run, turn)
      ensures forall c <- calls :: Settled(St(), c.id) ==> Served(St(), c.id, world)
    {
      var vs, classes := Invocations(calls, world.kind), Verdicts(calls, world.verdict);
      assert CallsOf(vs) == calls;
      var ok, cs := Classify(classes);
      if !ok {
        WalkStart(log, CallsOf(vs));
        WalkedAdvances(log, log, CallsOf(vs), 0);
        AllServed(log, world);
        return Failed;
      }
      UptoAskFacts(classes);
      hide Served, Settled, TurnResult;
      outcome := WalkCalls(vs, cs, run, turn);
      AllServed(log, world);
    }

    /** The walk over all classified entries, and the final flush unless it paused. */
    method WalkCalls(vs: seq<Invocation>, cs: seq<TT.Class>, run: nat, turn: nat)
      returns (outcome: TurnOutcome)
      requires Valid() && Distinct(CallsOf(vs)) && AllFresh(St(), CallsOf(vs))
      requires ByPolicy(vs, cs, world.verdict) && TT.Classified(cs) && (TT.Paused(cs) || |cs| == |vs|)
      modifies this
      ensures Valid() && Steady()
      ensures TurnResult(outcome, old(log), log, vs, cs, world.exec, PortFailed(), run, turn)
    {
      WalkStart(log, CallsOf(vs));
      outcome := WalkLoop(vs, cs, log, run, turn);
    }

    method WalkLoop(vs: seq<Invocation>, cs: seq<TT.Class>, ghost log0: seq<Record>,
                    run: nat, turn: nat)
      returns (outcome: TurnOutcome)
      requires Valid() && Distinct(CallsOf(vs)) && ByPolicy(vs, cs, world.verdict)
      requires TT.Classified(cs) && (TT.Paused(cs) || |cs| == |vs|)
      requires Walking(vs, cs, [], log0, log, 0, 0, 0, 0, world.exec)
      modifies this
      ensures Valid() && Steady()
      ensures TurnResult(outcome, log0, log, vs, cs, world.exec, PortFailed(), run, turn)
    {
      hide Walking;
      var batch: seq<Invocation> := [];
      var g, e, f := 0, 0, 0;
      outcome := Continue;
      for i := 0 to |cs|
        invariant Valid() && Steady() && outcome.Continue?
        invariant Walking(vs, cs, batch, log0, log, i, g, e, f, world.exec)
      {
        label entry:
        outcome, batch, g, e, f := WalkEntry(vs, cs, batch, log0, g, e, f, i, run, turn);
        if !outcome.Continue? {
          TurnResultLater(outcome, log0, log, vs, cs, world.exec, PortFailed@entry(), PortFailed(), run, turn);
          return;
        }
      }
      label flush:
      outcome := FinishWalk(vs, cs, batch, log0, g, e, f, run, turn);
      TurnResultLater(outcome, log0, log, vs, cs, world.exec, PortFailed@flush(), PortFailed(), run, turn);
    }

    /** The flush after the last entry of a turn that did not pause. */
    method FinishWalk(vs: seq<Invocation>, cs: seq<TT.Class>, batch: seq<Invocation>, ghost log0: seq<Record>,
                      g: nat, e: nat, f: nat, run: nat, turn: nat)
      returns (outcome: TurnOutcome)
      requires Valid() && Distinct(CallsOf(vs)) && ByPolicy(vs, cs, world.verdict) && (TT.Paused(cs) || |cs| == |vs|)
      requires Walking(vs, cs, batch, log0, log, |cs|, g, e, f, world.exec)
      modifies this
      ensures Valid() && Steady()
      ensures TurnResult(outcome, log0, log, vs, cs, world.exec, PortFailed(), run, turn)
    {
      WalkFailed(cs, |cs|, g, e, f);
      ghost var n := |cs|;
      BatchIsAllowed(vs, cs, batch, n, g, e, f, world.verdict);
      hide Advanced, AllRun, AllowedRun, WalkedTo, Pick, TT.Reflushes;
      var ok := FlushAt(vs, batch, log0, g, e, f, |cs|, run, turn);
      if ok {
        RanMore(vs, cs, n, g, e, f, world.exec);
      } else if !PortFailed() {
        StoppedBy(log0, log, vs, cs, n, g, e, f, world.exec);
      }
      outcome := if ok then Continue else Failed;
    }

    /** One classified entry of the walk. */
    method WalkEntry(vs: seq<Invocation>, cs: seq<TT.Class>, batch: seq<Invocation>, ghost log0: seq<Record>,
                     g: nat, e: nat, f: nat, i: nat, run: nat, turn: nat)
      returns (outcome: TurnOutcome, batch': seq<Invocation>, g': nat, e': nat, f': nat)
      requires Valid() && Distinct(CallsOf(vs)) && i < |cs| && ByPolicy(vs, cs, world.verdict) && TT.Classified(cs)
      requires Walking(vs, cs, batch, log0, log, i, g, e, f, world.exec)
      modifies this
      ensures Valid() && Steady()
      ensures outcome.Continue? ==> Walking(vs, cs, batch', log0, log, i + 1, g', e', f', world.exec)
      ensures !outcome.Continue? ==> TurnResult(outcome, log0, log, vs, cs, world.exec, PortFailed(), run, turn)
    {
      hide Walked, Batched, WalkedTo, TurnResult, AllowedRun;
      outcome, batch', g', e', f' := Continue, batch, g, e, f;
      match cs[i] {
        case Allowed =>
          WalkAllowed(cs, i, g, e, f);
          BatchAllowed(vs, cs, batch, i, g, e, f);
          batch' := batch + [vs[i]];
        case Rejected =>
          outcome := RefuseEntry(vs, cs, batch, log0, g, e, f, i, run, turn);
          batch', g', e', f' := [], i + 1, i + 1, i + 1;
        case Denied =>
          outcome := RefuseEntry(vs, cs, batch, log0, g, e, f, i, run, turn);
          g', e', f' := f, i, i + 1;
        case Ask =>
          outcome := PauseEntry(vs, cs, batch, log0, g, e, f, i, run, turn);
      }
    }

    method PauseEntry(vs: seq<Invocation>, cs: seq<TT.Class>, batch: seq<Invocation>, ghost log0: seq<Record>,
                      g: nat, e: nat, f: nat, i: nat, run: nat, turn: nat)
      returns (outcome: TurnOutcome)
      requires Valid() && Distinct(CallsOf(vs)) && i < |cs| && ByPolicy(vs, cs, world.verdict) && TT.Classified(cs) && cs[i].Ask?
      requires Walked(cs, i, g, e, f) && Batched(vs, cs, batch, i, g, e, f)
      requires WalkedTo(log0, log, CallsOf(vs), f) && f <= |cs| && AllowedRun(vs, cs, f, world.exec)
      modifies this
      ensures Valid() && Steady() && !outcome.Continue?
      ensures TurnResult(outcome, log0, log, vs, cs, world.exec, PortFailed(), run, turn)
    {
      hide Walked, Batched, WalkedTo, PausedAt, Distinct, TT.Reflushes, TT.Classified, Advanced, AllRun, AllowedRun;
      hide PausedSomewhere, Blocked;
      WalkFailed(cs, i, g, e, f);
      BatchShape(vs, cs, batch, i, g, e, f);
      BatchIsAllowed(vs, cs, batch, i, g, e, f, world.verdict);
      var ok, approval := PauseAt(vs, batch, log0, g, e, f, i, run, turn);
      Somewhere(log0, log, CallsOf(vs), i, approval, run, turn);
      if ok {
        WalkAsked(cs, i);
        RanMore(vs, cs, i, g, e, f, world.exec);
        Unblocked(vs, cs, world.exec);
        return Waiting(i, approval);
      }
      if !PortFailed() {
        StoppedBy(log0, log, vs, cs, i, g, e, f, world.exec);
      }
      return Failed;
    }

    method RefuseEntry(vs: seq<Invocation>, cs: seq<TT.Class>, batch: seq<Invocation>, ghost log0: seq<Record>,
                       g: nat, e: nat, f: nat, i: nat, run: nat, turn: nat)
      returns (outcome: TurnOutcome)
      requires Valid() && Distinct(CallsOf(vs)) && i < |cs| && ByPolicy(vs, cs, world.verdict) && (cs[i].Rejected? || cs[i].Denied?)
      requires Walked(cs, i, g, e, f) && Batched(vs, cs, batch, i, g, e, f)
      requires WalkedTo(log0, log, CallsOf(vs), f) && f <= |cs| && AllowedRun(vs, cs, f, world.exec)
      modifies this
      ensures Valid() && Steady() && !outcome.Waiting?
      ensures outcome.Continue? ==> WalkedTo(log0, log, CallsOf(vs), i + 1) && AllowedRun(vs, cs, i + 1, world.exec)
      ensures outcome.Continue? && cs[i].Rejected? ==>
                Walked(cs, i + 1, i + 1, i + 1, i + 1) && Batched(vs, cs, [], i + 1, i + 1, i + 1, i + 1)
      ensures outcome.Continue? && cs[i].Denied? ==>
                Walked(cs, i + 1, f, i, i + 1) && Batched(vs, cs, batch, i + 1, f, i, i + 1)
      ensures outcome.Failed? ==> TurnResult(outcome, log0, log, vs, cs, world.exec, PortFailed(), run, turn)
    {
      WalkFailed(cs, i, g, e, f);
      BatchIsAllowed(vs, cs, batch, i, g, e, f, world.verdict);
      hide Advanced, AllRun, AllowedRun, WalkedTo, TT.Reflushes;
      var ok := RefuseAt(vs, batch, log0, g, e, f, i, run, turn);
      if !ok {
        if !PortFailed() {
          StoppedBy(log0, log, vs, cs, i, g, e, f, world.exec);
        }
        return Failed;
      }
      RanMore(vs, cs, i, g, e, f, world.exec);
      BatchRefused(vs, cs, batch, i, g, f);
      if cs[i].Rejected? {
        WalkRejected(cs, i, g, f);
      } else {
        WalkDenied(cs, i, g, f);
      }
      return Continue;
    }
  }

  datatype TurnOutcome = Continue | Waiting(at: nat, approval: nat) | Failed


  /** An invocation whose execution fails or that must not be scheduled. */
  predicate CannotRun(v: Invocation, exec: nat -> Option<Terminal>) {
    v.kind.PolicyRequired? || exec(v.call.id).None?
  }

  /** Every invocation from `f` up to `i` can be scheduled and executes. */
  predicate AllRun(vs: seq<Invocation>, f: nat, i: nat, exec: nat -> Option<Terminal>)
    requires f <= i <= |vs|
  {
    forall j :: f <= j < i ==> !CannotRun(vs[j], exec)
  }

  /** Every allowed call before `n` can be scheduled and executes. */
  predicate AllowedRun(vs: seq<Invocation>, cs: seq<TT.Class>, n: nat, exec: nat -> Option<Terminal>)
    requires n <= |cs| <= |vs|
  {
    forall j :: 0 <= j < n && cs[j].Allowed? ==> !CannotRun(vs[j], exec)
  }

  /** The only reasons for a turn to fail when every port works: a reflush, or an allowed call that cannot run. */
  ghost predicate Blocked(vs: seq<Invocation>, cs: seq<TT.Class>, exec: nat -> Option<Terminal>)
    requires |cs| <= |vs|
  {
    TT.Reflushes(cs, |cs|) || !AllowedRun(vs, cs, |cs|, exec)
  }

  /** The calls before `f` are answered, in source order, and no other. */
  predicate AnsweredTo(log0: seq<Record>, log: seq<Record>, calls: seq<Call>, f: nat) {
    f <= |calls| && Answered(log) == Answered(log0) + CallIds(calls[..f])
  }

  /** Whatever happened since `log0`, it answered a prefix of the calls and opened or closed no approval. */
  ghost predicate Advanced(log0: seq<Record>, log: seq<Record>, calls: seq<Call>) {
    && Replay(log0).Some? && Replay(log).Some? && Grown(log0, log)
    && Replay(log).value.pending == Replay(log0).value.pending
    && exists f: nat :: AnsweredTo(log0, log, calls, f)
  }

  ghost predicate PausedSomewhere(log0: seq<Record>, log: seq<Record>, calls: seq<Call>, run: nat, turn: nat) {
    exists k: nat, approval: nat :: PausedAt(log0, log, calls, k, approval, run, turn)
  }

  lemma Somewhere(log0: seq<Record>, log: seq<Record>, calls: seq<Call>, k: nat, approval: nat, run: nat, turn: nat)
    ensures PausedAt(log0, log, calls, k, approval, run, turn) ==> PausedSomewhere(log0, log, calls, run, turn)
  {
  }

  lemma WalkedFresh(log0: seq<Record>, log: seq<Record>, calls: seq<Call>, i: nat)
    requires WalkedTo(log0, log, calls, i) && i < |calls|
    ensures Replay(log).Some? && Fresh(Replay(log).value, calls[i])
  {
    FreshAt(Replay(log).value, calls, i, i);
  }

  lemma WalkPaused(log0: seq<Record>, log: seq<Record>, log': seq<Record>, calls: seq<Call>, i: nat, approval: nat,
                   run: nat, turn: nat)
    requires Distinct(calls) && i < |calls| && WalkedTo(log0, log, calls, i) && Replay(log').Some?
    requires PausedLog(log, log', run, turn) && Answered(log') == Answered(log)
    requires PausedState(Replay(log).value, Replay(log').value, calls[i], approval, run, turn)
    ensures PausedAt(log0, log', calls, i, approval, run, turn)
  {
    hide Replay, Answered, Distinct;
    GrownTrans(log0, log, log'[..|log'| - 1]);
    PauseFacts(Replay(log0).value, Replay(log).value, Replay(log').value, calls, i, approval, run, turn);
  }

  lemma WalkedAdvances(log0: seq<Record>, log: seq<Record>, calls: seq<Call>, f: nat)
    requires WalkedTo(log0, log, calls, f)
    ensures Advanced(log0, log, calls)
  {
    assert AnsweredTo(log0, log, calls, f);
  }

  lemma FlushAdvances(log0: seq<Record>, log: seq<Record>, log': seq<Record>, calls: seq<Call>, f: nat, i: nat, clean: bool)
    requires f <= i <= |calls| && WalkedTo(log0, log, calls, f) && Grown(log, log') && Replay(log').Some?
    requires Replay(log').value.pending == Replay(log).value.pending
    requires Answered(log') == Answered(log) || (clean && Answered(log') == Answered(log) + CallIds(calls[f..i]))
    ensures Advanced(log0, log', calls)
  {
    GrownTrans(log0, log, log');
    if Answered(log') == Answered(log) {
      assert AnsweredTo(log0, log', calls, f);
    } else {
      AnswersExtend(Answered(log0), calls, f, i);
      assert AnsweredTo(log0, log', calls, i);
    }
  }

  /**
   What a walked turn leaves behind: all calls settled and answered in source
   order, or a pause on the asking call with the later ones untouched, or a
   failure that answered a prefix of them, or wrote a pause, and that without a
   port fault has one of the named causes.
  */
  ghost predicate TurnResult(outcome: TurnOutcome, log0: seq<Record>, log: seq<Record>, vs: seq<Invocation>,
                             cs: seq<TT.Class>, exec: nat -> Option<Terminal>, fault: bool, run: nat, turn: nat)
    requires |cs| <= |vs|
  {
    match outcome
    case Continue => WalkedTo(log0, log, CallsOf(vs), |vs|) && !TT.Paused(cs) && !Blocked(vs, cs, exec)
    case Waiting(at, approval) =>
      && TT.Paused(cs) && at == |cs| - 1 && !Blocked(vs, cs, exec)
      && PausedAt(log0, log, CallsOf(vs), at, approval, run, turn)
    case Failed =>
      && (Advanced(log0, log, CallsOf(vs)) || PausedSomewhere(log0, log, CallsOf(vs), run, turn))
      && (!fault ==> Blocked(vs, cs, exec) && StopsAtReflush(log0, log, vs, cs, exec))
  }

  lemma TurnResultLater(outcome: TurnOutcome, log0: seq<Record>, log: seq<Record>, vs: seq<Invocation>, cs: seq<TT.Class>,
                        exec: nat -> Option<Terminal>, before: bool, fault: bool, run: nat, turn: nat)
    requires |cs| <= |vs| && TurnResult(outcome, log0, log, vs, cs, exec, before, run, turn) && (before ==> fault)
    ensures TurnResult(outcome, log0, log, vs, cs, exec, fault, run, turn)
  {
  }

  /** If the allowed calls before the first reflushing denial run, exactly the calls up to that denial are answered. */
  ghost predicate StopsAtReflush(log0: seq<Record>, log: seq<Record>, vs: seq<Invocation>, cs: seq<TT.Class>,
                                 exec: nat -> Option<Terminal>)
    requires |cs| <= |vs|
  {
    forall d: nat :: TT.FirstReflush(cs, d) && AllowedRun(vs, cs, d, exec) ==> WalkedTo(log0, log, CallsOf(vs), d + 1)
  }

  /** The state of the walk before entry `i`. */
  ghost predicate Walking(vs: seq<Invocation>, cs: seq<TT.Class>, batch: seq<Invocation>, log0: seq<Record>,
                          log: seq<Record>, i: nat, g: nat, e: nat, f: nat, exec: nat -> Option<Terminal>) {
    && i <= |cs| <= |vs| && Walked(cs, i, g, e, f) && Batched(vs, cs, batch, i, g, e, f)
    && WalkedTo(log0, log, CallsOf(vs), f) && f <= |cs| && AllowedRun(vs, cs, f, exec)
    && forall j :: 0 <= j < i ==> !cs[j].Ask?
  }

  /** The classes up to and including the first that asks. */
  function UptoAsk(classes: seq<TT.Class>): (r: seq<TT.Class>)
    ensures |r| <= |classes|
  {
    if classes == [] || classes[0].Ask? then classes[..if classes == [] then 0 else 1]
    else [classes[0]] + UptoAsk(classes[1..])
  }

  lemma {:induction false} UptoAskFacts(classes: seq<TT.Class>)
    ensures UptoAsk(classes) <= classes && TT.Classified(UptoAsk(classes))
    ensures |UptoAsk(classes)| < |classes| ==> TT.Paused(UptoAsk(classes))
  {
    if classes != [] && !classes[0].Ask? {
      UptoAskFacts(classes[1..]);
    }
  }

  lemma {:induction false} UptoAskIs(classes: seq<TT.Class>, i: nat)
    requires i <= |classes| && forall j :: 0 <= j < i ==> !classes[j].Ask?
    ensures i == |classes| ==> UptoAsk(classes) == classes
    ensures i < |classes| && classes[i].Ask? ==> UptoAsk(classes) == classes[..i + 1]
    decreases i
  {
    if i > 0 {
      UptoAskIs(classes[1..], i - 1);
    }
  }

  /** Calls before `f` are settled, those from `f` on untouched, and nothing else changed. */
  predicate SettledUpto(s0: State, s: State, calls: seq<Call>, f: nat) {
    && f <= |calls|
    && OnlyTools(s0, s, Ids(calls[..f]))
    && AllSettled(s, calls[..f])
    && AllFresh(s, calls[f..])
  }

  /** From `log0` the walk has settled and answered exactly the calls before `f`, in source order. */
  ghost predicate WalkedTo(log0: seq<Record>, log: seq<Record>, calls: seq<Call>, f: nat) {
    && Replay(log0).Some? && Replay(log).Some? && Grown(log0, log)
    && SettledUpto(Replay(log0).value, Replay(log).value, calls, f)
    && Answered(log) == Answered(log0) + CallIds(calls[..f])
  }

  /** From `log0` the walk has settled and answered the calls before `k` and waits on call `k`. */
  ghost predicate PausedAt(log0: seq<Record>, log: seq<Record>, calls: seq<Call>, k: nat, approval: nat, run: nat, turn: nat) {
    && Replay(log0).Some? && Replay(log).Some? && PausedLog(log0, log, run, turn)
    && TurnPaused(Replay(log0).value, Replay(log).value, calls, k, approval, run, turn)
    && Answered(log) == Answered(log0) + CallIds(calls[..k])
  }

  /** The turn paused on call `k`: earlier calls settled, later ones untouched. */
  predicate TurnPaused(s0: State, s: State, calls: seq<Call>, k: nat, approval: nat, run: nat, turn: nat) {
    && k < |calls|
    && AllSettled(s, calls[..k])
    && WaitsOn(s, calls[k], approval)
    && AllFresh(s, calls[k + 1..])
    && s.pending.Keys == s0.pending.Keys + {approval}
    && s.checkpoint == Some(Checkpoint(run, turn, WaitForApproval))
    && s.recovery == s0.recovery && s.declared == s0.declared
    && s.tools.Keys == s0.tools.Keys
    && forall id <- s0.tools :: id !in Ids(calls) ==> s.tools[id] == s0.tools[id]
  }

  function Pick(vs: seq<Invocation>, indices: seq<nat>): seq<Invocation> {
    if indices == [] then []
    else
      var last := indices[|indices| - 1];
      Pick(vs, indices[..|indices| - 1]) + if last < |vs| then [vs[last]] else []
  }

  /** The batch as the source holds it, seen as two slices of the turn's calls. */
  predicate Batched(vs: seq<Invocation>, cs: seq<TT.Class>, batch: seq<Invocation>, i: nat, g: nat, e: nat, f: nat) {
    && g <= e <= f <= i <= |cs| && i <= |vs|
    && batch == vs[g..e] + vs[f..i]
    && batch == Pick(vs, TT.Batch(cs, i, false))
  }

  lemma BatchAllowed(vs: seq<Invocation>, cs: seq<TT.Class>, batch: seq<Invocation>, i: nat, g: nat, e: nat, f: nat)
    requires i < |cs| && i < |vs| && cs[i].Allowed? && Batched(vs, cs, batch, i, g, e, f)
    ensures Batched(vs, cs, batch + [vs[i]], i + 1, g, e, f)
  {
    PickSnoc(vs, TT.Batch(cs, i, false), i);
    assert vs[f..i + 1] == vs[f..i] + [vs[i]];
  }

  /** A rejected call empties the batch; a denied one leaves it as it was. */
  lemma BatchRefused(vs: seq<Invocation>, cs: seq<TT.Class>, batch: seq<Invocation>, i: nat, g: nat, f: nat)
    requires i < |cs| && i < |vs| && Batched(vs, cs, batch, i, g, g, f)
    ensures cs[i].Rejected? ==> Batched(vs, cs, [], i + 1, i + 1, i + 1, i + 1)
    ensures cs[i].Denied? ==> Batched(vs, cs, batch, i + 1, f, i, i + 1)
  {
    assert vs[g..g] + vs[f..i] == vs[f..i] + vs[i + 1..i + 1];
  }

  lemma PickSnoc(vs: seq<Invocation>, indices: seq<nat>, i: nat)
    requires i < |vs|
    ensures Pick(vs, indices + [i]) == Pick(vs, indices) + [vs[i]]
  {
    assert (indices + [i])[..|indices|] == indices;
  }

  /** Bookkeeping of the walk: leftovers exist exactly when a reflush is due. */
  ghost predicate Walked(cs: seq<TT.Class>, i: nat, g: nat, e: nat, f: nat) {
    && g <= e <= f <= i <= |cs|
    && (forall j :: f <= j < i ==> cs[j].Allowed?) && (forall j :: g <= j < e ==> cs[j].Allowed?)
    && (g < e <==> TT.Reflushes(cs, i)) && (g < e ==> f > 0 && TT.FirstReflush(cs, f - 1))
    && (g == e ==> forall k: nat :: k < f && cs[k].Allowed? ==> !TT.NoRejection(cs, k + 1, f))
  }

  lemma WalkStart(log: seq<Record>, calls: seq<Call>)
    requires Replay(log).Some? && AllFresh(Replay(log).value, calls)
    ensures WalkedTo(log, log, calls, 0)
  {
    assert calls[..0] == [] && calls[0..] == calls && log[|log|..] == [];
    assert Answered(log) + [] == Answered(log);
  }

  lemma WalkExtends(log0: seq<Record>, log: seq<Record>, log': seq<Record>, calls: seq<Call>, f: nat, i: nat)
    requires Distinct(calls) && f <= i <= |calls| && WalkedTo(log0, log, calls, f)
    requires Replay(log').Some? && Grown(log, log')
    requires OnlyTools(Replay(log).value, Replay(log').value, Ids(calls[f..i]))
    requires AllSettled(Replay(log').value, calls[f..i])
    requires Answered(log') == Answered(log) + CallIds(calls[f..i])
    ensures WalkedTo(log0, log', calls, i)
  {
    GrownTrans(log0, log, log');
    SettledExtends(Replay(log0).value, Replay(log).value, Replay(log').value, calls, f, i);
    AnswersExtend(Answered(log0), calls, f, i);
  }

  lemma AnswersExtend(answers: seq<nat>, calls: seq<Call>, f: nat, i: nat)
    requires f <= i <= |calls|
    ensures answers + CallIds(calls[..f]) + CallIds(calls[f..i]) == answers + CallIds(calls[..i])
  {
    assert calls[..i] == calls[..f] + calls[f..i];
    CallIdsAppend(calls[..f], calls[f..i]);
  }

  lemma WalkOne(log0: seq<Record>, log: seq<Record>, log': seq<Record>, calls: seq<Call>, i: nat)
    requires Distinct(calls) && i < |calls| && WalkedTo(log0, log, calls, i)
    requires Replay(log').Some? && Grown(log, log')
    requires OnlyTools(Replay(log).value, Replay(log').value, {calls[i].id})
    requires Settled(Replay(log').value, calls[i].id)
    requires Answered(log') == Answered(log) + [calls[i].id]
    ensures WalkedTo(log0, log', calls, i + 1)
  {
    assert calls[i..i + 1] == [calls[i]] && calls[i..i + 1][1..] == [];
    assert Ids(calls[i..i + 1]) == {calls[i].id};
    WalkExtends(log0, log, log', calls, i, i + 1);
  }

  lemma WalkAsked(cs: seq<TT.Class>, i: nat)
    requires i < |cs| && TT.Classified(cs) && cs[i].Ask? && !TT.Reflushes(cs, i)
    ensures i == |cs| - 1 && !TT.Reflushes(cs, |cs|)
  {
    forall k: nat, j: nat | TT.ReflushAt(cs, k, j) ensures j < i {}
  }

  lemma WalkAllowed(cs: seq<TT.Class>, i: nat, g: nat, e: nat, f: nat)
    requires i < |cs| && Walked(cs, i, g, e, f) && cs[i].Allowed?
    ensures Walked(cs, i + 1, g, e, f)
  {
    forall k: nat, j: nat | TT.ReflushAt(cs, k, j) && j < i + 1 ensures j < i {}
    if TT.Reflushes(cs, i) {
      var k: nat, j: nat :| TT.ReflushAt(cs, k, j) && j < i;
    }
  }

  lemma WalkRejected(cs: seq<TT.Class>, i: nat, g: nat, f: nat)
    requires i < |cs| && Walked(cs, i, g, g, f) && cs[i].Rejected?
    ensures Walked(cs, i + 1, i + 1, i + 1, i + 1)
  {
    forall k: nat, j: nat | TT.ReflushAt(cs, k, j) && j < i + 1 ensures j < i {}
    forall k: nat | k < i + 1 && cs[k].Allowed? ensures !TT.NoRejection(cs, k + 1, i + 1) {
      assert k < i && cs[i].Rejected?;
    }
  }

  lemma WalkDenied(cs: seq<TT.Class>, i: nat, g: nat, f: nat)
    requires i < |cs| && Walked(cs, i, g, g, f) && cs[i].Denied?
    ensures Walked(cs, i + 1, f, i, i + 1)
  {
    if f < i {
      assert TT.ReflushAt(cs, i - 1, i);
      assert TT.Batch(cs, i, false) == TT.Batch(cs, i - 1, false) + [i - 1];
    } else {
      forall k: nat | k < i && cs[k].Allowed? ensures !TT.NoRejection(cs, k + 1, i) && !TT.NoRejection(cs, k + 1, i + 1) {
        assert !TT.NoRejection(cs, k + 1, f);
      }
      forall k: nat, j: nat ensures !(TT.ReflushAt(cs, k, j) && j < i + 1) {
        if j < i {
          assert !TT.Reflushes(cs, i);
        }
      }
    }
  }

  lemma WalkFailed(cs: seq<TT.Class>, i: nat, g: nat, e: nat, f: nat)
    requires Walked(cs, i, g, e, f)
    ensures g < e <==> TT.Reflushes(cs, i)
    ensures g < e ==> TT.Reflushes(cs, |cs|)
  {
    if g < e {
      var k: nat, j: nat :| TT.ReflushAt(cs, k, j) && j < i;
    }
  }

  lemma Unblocked(vs: seq<Invocation>, cs: seq<TT.Class>, exec: nat -> Option<Terminal>)
    requires |cs| <= |vs| && !TT.Reflushes(cs, |cs|) && AllowedRun(vs, cs, |cs|, exec)
    ensures !Blocked(vs, cs, exec)
  {
  }

  lemma BatchIsAllowed(vs: seq<Invocation>, cs: seq<TT.Class>, batch: seq<Invocation>, i: nat, g: nat, e: nat, f: nat,
                       verdict: nat -> TT.Class)
    requires Walked(cs, i, g, e, f) && Batched(vs, cs, batch, i, g, e, f) && ByPolicy(vs, cs, verdict)
    ensures forall v <- batch :: verdict(v.call.id).Allowed?
  {
    forall v <- batch ensures verdict(v.call.id).Allowed? {
      var m :| 0 <= m < |batch| && batch[m] == v;
      var j := if m < e - g then g + m else f + (m - (e - g));
      assert v == vs[j] && cs[j].Allowed?;
    }
  }

  lemma BatchShape(vs: seq<Invocation>, cs: seq<TT.Class>, batch: seq<Invocation>, i: nat, g: nat, e: nat, f: nat)
    requires Batched(vs, cs, batch, i, g, e, f)
    ensures g <= e <= f <= i <= |cs| && i <= |vs| && batch == vs[g..e] + vs[f..i]
  {
  }

  /** Why a turn failed without a fault, and how far it got. */
  lemma StoppedBy(log0: seq<Record>, log: seq<Record>, vs: seq<Invocation>, cs: seq<TT.Class>, i: nat, g: nat, e: nat, f: nat,
                  exec: nat -> Option<Terminal>)
    requires Walked(cs, i, g, e, f) && |cs| <= |vs|
    requires if g < e then WalkedTo(log0, log, CallsOf(vs), f) else !AllRun(vs, f, i, exec)
    ensures Blocked(vs, cs, exec) && StopsAtReflush(log0, log, vs, cs, exec)
  {
    hide WalkedTo, TT.FirstReflush, TT.Reflushes;
    WalkFailed(cs, i, g, e, f);
    if g == e {
      var j :| f <= j < i && CannotRun(vs[j], exec);
      assert cs[j].Allowed?;
      forall d: nat | TT.FirstReflush(cs, d) ensures !(d < i) {
        TT.ReflushFound(cs, d, i);
      }
      assert forall d: nat :: TT.FirstReflush(cs, d) ==> d >= i && d < |cs| by {
        forall d: nat | TT.FirstReflush(cs, d) ensures d < |cs| { FirstInside(cs, d); }
      }
    } else {
      forall d: nat | TT.FirstReflush(cs, d) ensures d == f - 1 {
        OneFirst(cs, d, f - 1);
      }
    }
  }

  lemma FirstInside(cs: seq<TT.Class>, d: nat)
    requires TT.FirstReflush(cs, d)
    ensures d < |cs|
  {
  }

  lemma OneFirst(cs: seq<TT.Class>, d: nat, d': nat)
    requires TT.FirstReflush(cs, d) && TT.FirstReflush(cs, d')
    ensures d == d'
  {
    TT.ReflushFound(cs, d, d');
    TT.ReflushFound(cs, d', d);
  }

  lemma RanMore(vs: seq<Invocation>, cs: seq<TT.Class>, i: nat, g: nat, e: nat, f: nat, exec: nat -> Option<Terminal>)
    requires Walked(cs, i, g, e, f) && |cs| <= |vs| && AllowedRun(vs, cs, f, exec) && AllRun(vs, f, i, exec)
    ensures AllowedRun(vs, cs, i, exec)
    ensures i < |cs| && !cs[i].Allowed? ==> AllowedRun(vs, cs, i + 1, exec)
  {
  }

  lemma FreshAt(s: State, calls: seq<Call>, f: nat, j: nat)
    requires f <= j < |calls| && AllFresh(s, calls[f..])
    ensures Fresh(s, calls[j])
  {
    assert calls[j] == calls[f..][j - f] && calls[f..][j - f] in calls[f..];
  }

  lemma SettledAt(s: State, calls: seq<Call>, f: nat, j: nat)
    requires j < f <= |calls| && AllSettled(s, calls[..f])
    ensures Settled(s, calls[j].id)
  {
    assert calls[j] == calls[..f][j] && calls[..f][j] in calls[..f];
  }

  lemma PartsDistinct(vs: seq<Invocation>, batch: seq<Invocation>, g: nat, e: nat, f: nat, i: nat)
    requires Distinct(CallsOf(vs)) && g <= e <= f <= i <= |vs| && batch == vs[g..e] + vs[f..i]
    ensures Distinct(CallsOf(batch))
  {
    var calls, mine := CallsOf(vs), CallsOf(batch);
    forall x, y | 0 <= x < y < |mine| ensures mine[x].id != mine[y].id {
      assert mine[x] == calls[if x < e - g then g + x else f + x - (e - g)];
      assert mine[y] == calls[if y < e - g then g + y else f + y - (e - g)];
    }
  }

  /** What a flush at entry `i` is given: leftovers are settled, the rest is fresh, no call occurs twice. */
  lemma BatchParts(s: State, vs: seq<Invocation>, batch: seq<Invocation>, g: nat, e: nat, f: nat, i: nat)
    requires Distinct(CallsOf(vs)) && g <= e <= f <= i <= |vs| && batch == vs[g..e] + vs[f..i]
    requires AllSettled(s, CallsOf(vs)[..f]) && AllFresh(s, CallsOf(vs)[f..])
    ensures Distinct(CallsOf(batch))
    ensures forall c <- CallsOf(batch) :: Fresh(s, c) || Settled(s, c.id)
    ensures AllFresh(s, CallsOf(batch)) <==> g == e
    ensures g == e ==> batch == vs[f..i] && CallsOf(batch) == CallsOf(vs)[f..i]
  {
    var calls, mine := CallsOf(vs), CallsOf(batch);
    forall j | 0 <= j < |mine| ensures if j < e - g then Settled(s, mine[j].id) && !Fresh(s, mine[j]) else Fresh(s, mine[j]) {
      if j < e - g {
        assert mine[j] == calls[g + j];
        SettledAt(s, calls, f, g + j);
      } else {
        assert mine[j] == calls[f + j - (e - g)];
        FreshAt(s, calls, f, f + j - (e - g));
      }
    }
    PartsDistinct(vs, batch, g, e, f, i);
    if g < e {
      assert mine[0] in mine && !Fresh(s, mine[0]);
    }
  }

  lemma SettledExtends(s0: State, s: State, s': State, calls: seq<Call>, f: nat, i: nat)
    requires Distinct(calls) && f <= i <= |calls| && SettledUpto(s0, s, calls, f)
    requires OnlyTools(s, s', Ids(calls[f..i])) && AllSettled(s', calls[f..i])
    ensures SettledUpto(s0, s', calls, i)
  {
    assert calls[..i] == calls[..f] + calls[f..i];
    forall c <- calls[..f] ensures Settled(s', c.id) {
      var j :| 0 <= j < f && calls[j] == c;
      SettledAt(s, calls, f, j);
      NotAmong(calls, j, f, i);
    }
    forall c <- calls[i..] ensures Fresh(s', c) {
      var j :| 0 <= j < |calls[i..]| && calls[i..][j] == c;
      FreshAt(s, calls, f, i + j);
      NotAmong(calls, i + j, f, i);
    }
    forall id <- s0.tools | id !in Ids(calls[..i]) ensures s'.tools[id] == s0.tools[id] {
      assert id !in Ids(calls[..f]) && id !in Ids(calls[f..i]);
    }
  }

  lemma NotAmong(calls: seq<Call>, j: nat, f: nat, i: nat)
    requires Distinct(calls) && f <= i <= |calls| && j < |calls| && !(f <= j < i)
    ensures calls[j].id !in Ids(calls[f..i])
  {
    forall c <- calls[f..i] ensures c.id != calls[j].id {
      var m :| 0 <= m < |calls[f..i]| && calls[f..i][m] == c;
      assert c == calls[f + m];
    }
  }

  lemma RunOfBatch(vs: seq<Invocation>, f: nat, i: nat, exec: nat -> Option<Terminal>)
    requires f <= i <= |vs|
    ensures AllRun(vs, f, i, exec) <==> Schedulable(vs[f..i]) && Succeeds(vs[f..i], exec)
  {
    if !(Schedulable(vs[f..i]) && Succeeds(vs[f..i], exec)) {
      var v :| v in vs[f..i] && CannotRun(v, exec);
      var m :| 0 <= m < |vs[f..i]| && vs[f..i][m] == v;
      assert vs[f + m] == v;
    } else {
      forall j | f <= j < i ensures !CannotRun(vs[j], exec) {
        assert vs[f..i][j - f] == vs[j] && vs[j] in vs[f..i];
      }
    }
  }

  lemma {:induction false} CallIdsAppend(a: seq<Call>, b: seq<Call>)
    ensures CallIds(a + b) == CallIds(a) + CallIds(b)
    decreases |a|
  {
    if a == [] {
      assert a + b == b;
    } else {
      assert (a + b)[1..] == a[1..] + b;
      CallIdsAppend(a[1..], b);
    }
  }

  lemma PauseFacts(s0: State, s: State, s': State, calls: seq<Call>, k: nat, approval: nat, run: nat, turn: nat)
    requires Distinct(calls) && k < |calls| && SettledUpto(s0, s, calls, k)
    requires PausedState(s, s', calls[k], approval, run, turn)
    ensures TurnPaused(s0, s', calls, k, approval, run, turn)
  {
    forall c <- calls[..k] ensures Settled(s', c.id) {
      var j :| 0 <= j < k && calls[j] == c;
      SettledAt(s, calls, k, j);
    }
    forall c <- calls[k + 1..] ensures Fresh(s', c) {
      var j :| 0 <= j < |calls[k + 1..]| && calls[k + 1..][j] == c;
      FreshAt(s, calls, k, k + 1 + j);
    }
    forall id <- s0.tools | id !in Ids(calls) ensures s'.tools[id] == s0.tools[id] {
      assert id !in Ids(calls[..k]) && calls[k] in calls;
    }
  }

  /** Plain records and then the checkpoint that waits for an approval. */
  predicate PausedLog(before: seq<Record>, after: seq<Record>, run: nat, turn: nat) {
    && after != []
    && after[|after| - 1] == TurnCheckpointed(run, turn, WaitForApproval)
    && Grown(before, after[..|after| - 1])
  }

  predicate PausedState(s: State, s': State, c: Call, approval: nat, run: nat, turn: nat) {
    && c.id in s.tools
    && WaitsOn(s', c, approval)
    && s'.pending.Keys == s.pending.Keys + {approval}
    && s'.tools == s.tools[c.id := s'.tools[c.id]]
    && s'.checkpoint == Some(Checkpoint(run, turn, WaitForApproval))
    && s' == s.(tools := s'.tools, approvalIds := s'.approvalIds, pending := s'.pending, checkpoint := s'.checkpoint)
  }

  lemma WaitFacts(log: seq<Record>, s: State, c: Call, approval: nat, at: int, expires: int, run: nat, turn: nat)
    requires Fresh(s, c) && approval !in s.approvalIds && at < expires
    ensures
      var rs := WaitRecords(c, approval, at, expires, run, turn);
      && ApplyAll(s, rs).Some? && PausedState(s, ApplyAll(s, rs).value, c, approval, run, turn)
      && PausedLog(log, log + rs, run, turn)
      && Answered(log + rs) == Answered(log)
  {
    var rs := WaitRecords(c, approval, at, expires, run, turn);
    WaitAccepted(s, c, approval, at, expires, run, turn);
    AnsweredAppend(log, rs);
    AnsweredThree(rs);
    assert rs[..2] == [rs[0], rs[1]];
    GrownBy(log, rs[..2]);
    assert (log + rs)[..|log + rs| - 1] == log + rs[..2];
  }

  lemma AnsweredThree(rs: seq<Record>)
    requires |rs| == 3
    requires forall i :: 0 <= i < 2 ==> !(rs[i].MessageCommitted? && rs[i].message.ToolResult?)
    ensures Answered(rs) == if rs[2].MessageCommitted? && rs[2].message.ToolResult? then [rs[2].message.call] else []
  {
    assert rs[..2][..1] == [rs[0]] && [rs[0]][..0] == [];
    assert Answered([rs[0]]) == [];
    assert Answered(rs[..2]) == [];
  }

  function Without(calls: seq<Call>, kept: set<nat>): seq<Call> {
    if calls == [] then []
    else
      var rest := Without(calls[..|calls| - 1], kept);
      if calls[|calls| - 1].id in kept then rest else rest + [calls[|calls| - 1]]
  }

  lemma {:induction false} WithoutFacts(calls: seq<Call>, kept: set<nat>)
    requires Distinct(calls)
    ensures Distinct(Without(calls, kept))
    ensures forall c <- calls :: c in Without(calls, kept) <==> c.id !in kept
    ensures forall c <- Without(calls, kept) :: c in calls
  {
    if calls != [] {
      WithoutFacts(calls[..|calls| - 1], kept);
    }
  }

  lemma OnlyToolsTrans(a: State, b: State, c: State, ids: set<nat>)
    requires OnlyTools(a, b, ids) && OnlyTools(b, c, ids)
    ensures OnlyTools(a, c, ids)
  {
  }

  lemma MembersAreCalls(batch: seq<Invocation>)
    ensures forall v <- batch :: v.call in CallsOf(batch)
  {
    forall v <- batch ensures v.call in CallsOf(batch) {
      var i :| 0 <= i < |batch| && batch[i] == v;
      assert CallsOf(batch)[i] == v.call;
    }
  }

  lemma SameMembers(a: seq<Invocation>, b: seq<Invocation>)
    requires multiset(a) == multiset(b)
    ensures forall v :: v in a <==> v in b
  {
    forall v ensures v in a <==> v in b {
      assert v in a <==> v in multiset(a);
      assert v in b <==> v in multiset(b);
    }
  }

  /** A batch of fresh and settled calls starts exactly when all of it is fresh. */
  lemma StartOutcome(s: State, calls: seq<Call>)
    requires StateOk(s) && Distinct(calls) && forall c <- calls :: Fresh(s, c) || Settled(s, c.id)
    ensures ApplyAll(s, StartRecords(calls)).Some? <==> AllFresh(s, calls)
    ensures AllFresh(s, calls) ==> OnlyTools(s, ApplyAll(s, StartRecords(calls)).value, Ids(calls))
    ensures AllFresh(s, calls) ==> forall c <- calls :: Executing(ApplyAll(s, StartRecords(calls)).value, c)
  {
    if AllFresh(s, calls) {
      StartsAccepted(s, calls);
    } else if ApplyAll(s, StartRecords(calls)).Some? {
      var c :| c in calls && !Fresh(s, c);
      assert ToolOk(s.tools[c.id]) && s.tools[c.id].policy.Some?;
      StartsNeedUndecided(s, calls, c);
    }
  }

  lemma {:induction false} CollectedSucceeded(order: seq<Invocation>, exec: nat -> Option<Terminal>, id: nat)
    requires id in Keys(Collected(order, exec))
    ensures exec(id).Some?
  {
    var got := Collected(order, exec);
    var v :| v in got && v.call.id == id;
    if v != order[0] {
      assert v in got[1..] && got[1..] == Collected(order[1..], exec);
      CollectedSucceeded(order[1..], exec, id);
    }
  }

  /** After a batch was abandoned no continuation of the log can start a new run. */
  lemma AbandonedBatchBlocks(s: State, batch: seq<Invocation>, exec: nat -> Option<Terminal>, more: seq<Record>)
    requires Abandoned(s, batch, exec) && !Succeeds(batch, exec) && ApplyAll(s, more).Some?
    ensures !CanStartRun(ApplyAll(s, more).value)
  {
    var v :| v in batch && exec(v.call.id).None?;
    var order := InGroup(batch, 0) + InGroup(batch, 1) + InGroup(batch, 2);
    if v.call.id in Keys(Collected(order, exec)) {
      CollectedSucceeded(order, exec, v.call.id);
    }
    assert Uncertain(s, v.call.id);
    InterruptionIsFinal(s, more, v.call.id);
  }
}

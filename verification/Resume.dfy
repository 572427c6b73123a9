/**
 Resuming a paused run: the approval is resolved, its call answered or executed,
 the later calls of the turn are processed one by one, the counters are rebuilt
 from the log and the run loop continues.
*/
module Resume {
  import opened Basics
  import opened SessionLog
  import opened ToolRecords
  import opened RunCounters
  import opened RunEndings
  import opened Kernel
  import opened RunLedger
  import opened RunLoop
  import opened QueuedInput
  import opened CallOutcomes
  import TT = ToolTurn
  import Q = InputQueue

  // ------------------------------------------------------------ a single call

  /** What processing one untouched call does to the session. */
  ghost predicate Processed(outcome: TurnOutcome, log: seq<Record>, log': seq<Record>, c: Call, run: nat, turn: nat) {
    && Replay(log).Some? && Replay(log').Some?
    && match outcome
       case Continue =>
         && Grown(log, log') && OnlyTools(Replay(log).value, Replay(log').value, {c.id})
         && Settled(Replay(log').value, c.id) && Answered(log') == Answered(log) + [c.id]
       case Waiting(_, approval) =>
         && PausedLog(log, log', run, turn) && Answered(log') == Answered(log)
         && PausedState(Replay(log).value, Replay(log').value, c, approval, run, turn)
       case Failed =>
         || (&& Grown(log, log') && Replay(log').value.pending == Replay(log).value.pending
             && (Answered(log') == Answered(log) || Answered(log') == Answered(log) + [c.id]))
         || exists approval: nat :: StillPaused(log, log', c, approval, run, turn)
  }

  /** The pause was written before its announcement failed. */
  ghost predicate StillPaused(log: seq<Record>, log': seq<Record>, c: Call, approval: nat, run: nat, turn: nat) {
    && Replay(log).Some? && Replay(log').Some? && Answered(log') == Answered(log)
    && PausedLog(log, log', run, turn) && PausedState(Replay(log).value, Replay(log').value, c, approval, run, turn)
  }

  /** The call neither asks nor fails when it runs. */
  predicate Passes(c: Call, w: World) {
    !w.verdict(c.id).Ask? && (w.verdict(c.id).Allowed? ==> w.exec(c.id).Some?)
  }

  /** One call after a resumed approval, as policy decides: refused, executed alone, or paused on. */
  method ProcessTool(k: AgentKernel, c: Call, run: nat, turn: nat) returns (outcome: TurnOutcome)
    requires k.Valid() && Fresh(k.St(), c)
    modifies k
    ensures k.Valid() && k.Steady()
    ensures Processed(outcome, old(k.log), k.log, c, run, turn)
    ensures outcome.Continue? ==> Passes(c, k.world) && Served(k.St(), c.id, k.world)
    ensures outcome.Waiting? ==> k.world.verdict(c.id).Ask?
    ensures !k.PortFailed() && outcome.Failed? ==> k.world.verdict(c.id).Allowed? && k.world.exec(c.id).None?
  {
    GrownBy(k.log, []);
    assert k.log + [] == k.log;
    hide Served;
    var ok := k.Port();
    if !ok {
      return Failed;
    }
    match k.world.verdict(c.id) {
      case Ask =>
        var approval;
        ok, approval := k.WaitForApproval(c, run, turn);
        assert k.log == old(k.log) || StillPaused(old(k.log), k.log, c, approval, run, turn);
        return if ok then Waiting(0, approval) else Failed;
      case Allowed =>
        ok := ExecuteAlone(k, c, run, turn);
        AllServed(k.log, k.world);
        return if ok then Continue else Failed;
      case _ =>
        var payload: nat := *;
        ok := k.CommitDenied(c, Terminal(true, payload));
        AllServed(k.log, k.world);
        return if ok then Continue else Failed;
    }
  }

  lemma Single(c: Call)
    ensures Distinct([c]) && Ids([c]) == {c.id} && CallIds([c]) == [c.id]
  {
    assert [c][1..] == [];
  }

  /** Starts, executes and answers one call, or records its interruption and the run's. */
  method ExecuteAlone(k: AgentKernel, c: Call, run: nat, turn: nat) returns (ok: bool)
    requires k.Valid() && Fresh(k.St(), c) && k.world.verdict(c.id).Allowed?
    modifies k
    ensures k.Valid() && k.Steady() && Grown(old(k.log), k.log)
    ensures k.St().pending == old(k.St()).pending
    ensures Answered(k.log) == Answered(old(k.log)) || Answered(k.log) == Answered(old(k.log)) + [c.id]
    ensures ok ==> OnlyTools(old(k.St()), k.St(), {c.id}) && Settled(k.St(), c.id)
    ensures ok ==> Answered(k.log) == Answered(old(k.log)) + [c.id]
    ensures ok ==> Ran(k.St(), c.id, k.world)
    ensures !ok ==> k.PortFailed() || k.world.exec(c.id).None?
  {
    hide Grown, Replay, Answered, StateOk, Honest;
    var result := k.world.exec(c.id);
    Single(c);
    ok := k.StartBatch([c]);
    if !ok {
      return;
    }
    assert Executing(k.St(), c) by { assert c in [c]; }
    label started:
    if result.None? {
      var cancelled: bool := *;
      k.AbandonBatch([c], {}, run, turn, cancelled);
      GrownTrans(old(k.log), old@started(k.log), k.log);
      return false;
    }
    ok := k.CommitResults([c], map[c.id := result.value]);
    GrownTrans(old(k.log), old@started(k.log), k.log);
    if ok {
      OnlyToolsTrans(old(k.St()), old@started(k.St()), k.St(), {c.id});
      AllRan(k.log, [c], k.world);
      assert Settled(k.St(), c.id) by { assert c in [c]; }
    }
  }

  // ------------------------------------------------------- the rest of the turn

  lemma StepPaused(log0: seq<Record>, log: seq<Record>, log': seq<Record>, calls: seq<Call>, i: nat, at: nat, approval: nat,
                   run: nat, turn: nat)
    requires Distinct(calls) && i < |calls| && WalkedTo(log0, log, calls, i)
    requires Processed(TurnOutcome.Waiting(at, approval), log, log', calls[i], run, turn)
    ensures PausedAt(log0, log', calls, i, approval, run, turn)
  {
    WalkPaused(log0, log, log', calls, i, approval, run, turn);
  }

  lemma StepFailed(log0: seq<Record>, log: seq<Record>, log': seq<Record>, calls: seq<Call>, i: nat, run: nat, turn: nat)
    requires Distinct(calls) && i < |calls| && WalkedTo(log0, log, calls, i)
    requires Processed(Failed, log, log', calls[i], run, turn)
    ensures Advanced(log0, log', calls) || PausedSomewhere(log0, log', calls, run, turn)
  {
    hide Replay, Answered, WalkedTo, Grown, PausedLog, PausedState, PausedAt, Advanced, Distinct;
    if approval: nat :| StillPaused(log, log', calls[i], approval, run, turn) {
      WalkPaused(log0, log, log', calls, i, approval, run, turn);
      Somewhere(log0, log', calls, i, approval, run, turn);
    } else {
      assert calls[i..i + 1] == [calls[i]];
      Single(calls[i]);
      FlushAdvances(log0, log, log', calls, i, i + 1, true);
    }
  }

  lemma StepDone(log0: seq<Record>, log: seq<Record>, log': seq<Record>, calls: seq<Call>, i: nat, run: nat, turn: nat)
    requires Distinct(calls) && i < |calls| && WalkedTo(log0, log, calls, i)
    requires Processed(Continue, log, log', calls[i], run, turn)
    ensures WalkedTo(log0, log', calls, i + 1)
  {
    WalkOne(log0, log, log', calls, i);
  }

  lemma BaseStart(prior: seq<Record>, log: seq<Record>, run: nat, done: seq<Call>, calls: seq<Call>)
    requires Base(prior, log, run, done, calls)
    ensures Distinct(calls) && WalkedTo(log, log, calls, 0)
  {
    WalkStart(log, calls);
  }

  /** Call `i` is the first that asks or cannot run. */
  predicate FirstStop(calls: seq<Call>, i: nat, w: World) {
    i < |calls| && !Passes(calls[i], w) && forall j :: 0 <= j < i ==> Passes(calls[j], w)
  }

  /** Processes the calls that follow the resolved one, in source order. */
  method WalkRest(k: AgentKernel, calls: seq<Call>, run: nat, turn: nat, size: Block -> nat,
                  ghost prior: seq<Record>, ghost done: seq<Call>, ghost cap: Limits) returns (end: TurnEnd)
    requires k.Valid() && Base(prior, k.log, run, done, calls) && Alive(prior, k.log, run, size, cap)
    requires |Turns(prior, k.log, run) + {turn}| <= cap.maxIterations
    modifies k
    ensures k.Valid() && k.Steady()
    ensures end.Closed? ==>
              && Base(prior, k.log, run, done + calls, []) && (Tainted(k.log, run) <==> Tainted(old(k.log), run))
              && Turns(prior, k.log, run) == Turns(prior, old(k.log), run)
              && OutputBytes(prior, k.log, size) == OutputBytes(prior, old(k.log), size)
    ensures !end.Closed? ==> Ends(end, prior, old(k.log), k.log, run, turn, size, cap, 0)
    ensures end.Closed? ==> forall c <- calls :: Passes(c, k.world)
    ensures end.Paused? || (end.Broken? && !k.PortFailed()) ==>
              exists i: nat :: FirstStop(calls, i, k.world) && (end.Paused? <==> k.world.verdict(calls[i].id).Ask?)
  {
    hide Served, Honest;
    hide Base, Alive, Ends, WalkedTo, Processed, Turns, OutputBytes, Distinct, Replay, Fresh, PausedAt, Grown, PausedLog, Advanced, PausedSomewhere;
    BaseStart(prior, k.log, run, done, calls);
    for i := 0 to |calls|
      invariant k.Valid() && k.Steady() && WalkedTo(old(k.log), k.log, calls, i)
      invariant forall j :: 0 <= j < i ==> Passes(calls[j], k.world)
    {
      ghost var log0 := k.log;
      WalkedFresh(old(k.log), k.log, calls, i);
      var outcome := ProcessTool(k, calls[i], run, turn);
      assert !Passes(calls[i], k.world) ==> FirstStop(calls, i, k.world);
      match outcome {
        case Continue => StepDone(old(k.log), log0, k.log, calls, i, run, turn);
        case Waiting(at, approval) =>
          StepPaused(old(k.log), log0, k.log, calls, i, at, approval, run, turn);
          PausedEnds(prior, old(k.log), k.log, run, turn, size, done, calls, i, approval, cap);
          return Paused(approval);
        case Failed =>
          StepFailed(old(k.log), log0, k.log, calls, i, run, turn);
          BrokenEnds(prior, old(k.log), k.log, run, turn, size, done, calls, cap);
          return Broken;
      }
    }
    WalkedBase(prior, old(k.log), k.log, run, size, done, calls);
    SameRecovery(old(k.log), k.log, run);
    return Closed;
  }

  lemma SameRecovery(log: seq<Record>, log': seq<Record>, run: nat)
    requires Replay(log).Some? && Replay(log').Some? && Replay(log').value.recovery == Replay(log).value.recovery
    ensures Tainted(log', run) <==> Tainted(log, run)
  {
  }

  // ----------------------------------------------------------------- continuing

  /** The paused call is answered and `rest` is what the turn still has to process. */
  ghost predicate Resumed(prior: seq<Record>, log: seq<Record>, run: nat, turn: nat, size: Block -> nat,
                          done: seq<Call>, c: Call, rest: seq<Call>, cap: Limits) {
    && Base(prior, log, run, done + [c], rest) && Alive(prior, log, run, size, cap)
    && turn in Turns(prior, log, run) && |Turns(prior, log, run)| <= cap.maxIterations <= U32_MAX
  }

  lemma ResumedFacts(prior: seq<Record>, log: seq<Record>, run: nat, turn: nat, size: Block -> nat,
                     done: seq<Call>, c: Call, rest: seq<Call>, cap: Limits)
    requires Resumed(prior, log, run, turn, size, done, c, rest, cap)
    ensures Replay(log).Some? && Remaining(log, Replay(log).value, c.id) == Some(rest)
    ensures |Turns(prior, log, run) + {turn}| <= cap.maxIterations
  {
    RemainingAfter(prior, log, run, done, c, rest);
    assert Turns(prior, log, run) + {turn} == Turns(prior, log, run);
  }

  /** Counters rebuilt after the turn's checkpoint satisfy the loop's invariant again. */
  lemma RebuiltReady(prior: seq<Record>, log: seq<Record>, run: nat, turn: nat, size: Block -> nat, cap: Limits, p: Progress)
    requires Head(prior, log, run, size) && turn in Turns(prior, log, run)
    requires |Turns(prior, log, run)| <= cap.maxIterations <= U32_MAX && OutputBytes(prior, log, size) <= cap.maxBytes
    requires p.iterations ==
               if |CheckpointedTurns(log, run)| <= U32_MAX then |CheckpointedTurns(log, run)| else U32_MAX
    requires p.bytes == CreditedBytes(log, run, size)
    ensures Ready(prior, log, run, size, p, cap)
    ensures p.iterations == |Turns(prior, log, run)| && p.bytes == OutputBytes(prior, log, size) + Segment(prior, size)
  {
    RebuiltCounters(prior, log, run, turn, size);
  }

  ghost predicate Continued(outcome: Outcome, prior: seq<Record>, log: seq<Record>, run: nat, size: Block -> nat,
                            cap: Limits, unended: bool, tainted: bool) {
    || Settles(outcome, prior, log, run, size, cap, unended, tainted)
    || (outcome.Error? && Stopped(Error, prior, log, run, size, cap, tainted))
  }

  /** Closes the resumed turn, rebuilds the counters from the log and goes on with the loop. */
  method CloseAndLoop(k: AgentKernel, q: Q.KernelInputQueue?, oracles: nat -> Oracle, run: nat, turn: nat, limits: Limits, size: Block -> nat,
                      ghost prior: seq<Record>, ghost done: seq<Call>, ghost cap: Limits)
    returns (outcome: Outcome, turns: nat, calls: nat)
    requires k.Valid() && Bounded(limits) && Base(prior, k.log, run, done, [])
    requires turn in Turns(prior, k.log, run) && |Turns(prior, k.log, run)| <= cap.maxIterations <= U32_MAX
    requires OutputBytes(prior, k.log, size) <= cap.maxBytes && QueueOk(q, k.log)
    requires limits.maxIterations <= cap.maxIterations && limits.maxBytes <= cap.maxBytes
    modifies k, q
    ensures k.Valid() && k.Steady() && QueueOk(q, k.log)
    ensures old(Clogged(q, k.log)) ==> Clogged(q, k.log) && !outcome.Completed? && turns == 0
    ensures Continued(outcome, prior, k.log, run, size, cap, k.unended, Tainted(old(k.log), run))
    ensures outcome.Completed? ==> exists i: nat :: FinalWord(k.log, run, oracles(i))
    ensures turns <= limits.maxIterations + 1 && calls <= turns * limits.maxAttempts
  {
    hide FinalWord;
    hide Base, Head, Turns, OutputBytes, Settles, Stopped, Tainted, Replay, Ready, CheckpointedTurns, CreditedBytes, QueueOk, Clogged;
    outcome, turns, calls := Error, 0, 0;
    ghost var tainted := Tainted(k.log, run);
    ResumedClosed(prior, k.log, run, turn, size, done, cap, tainted);
    var ok := CheckpointModelRequest(k, run, turn);
    QueueLater(q, old(k.log), k.log);
    if !ok {
      return;
    }
    var iterations := RebuildIterations(k.log, run);
    var bytes := RebuildOutputBytes(k.log, run, size);
    if bytes.None? {
      return;
    }
    var p := Progress(iterations, bytes.value);
    RebuiltReady(prior, k.log, run, turn, size, cap, p);
    outcome, turns, calls := Loop(k, q, oracles, run, None, turn, limits, p, size, prior, cap);
  }

  lemma ResumedClosed(prior: seq<Record>, log: seq<Record>, run: nat, turn: nat, size: Block -> nat, done: seq<Call>,
                      cap: Limits, tainted: bool)
    requires Base(prior, log, run, done, []) && turn in Turns(prior, log, run)
    requires |Turns(prior, log, run)| <= cap.maxIterations && OutputBytes(prior, log, size) <= cap.maxBytes
    ensures Stopped(Error, prior, log, run, size, cap, tainted)
    ensures
      var log' := log + [TurnCheckpointed(run, turn, ModelRequest)];
      && Stopped(Error, prior, log', run, size, cap, tainted) && Head(prior, log', run, size)
      && Turns(prior, log', run) == Turns(prior, log, run) && OutputBytes(prior, log', size) == OutputBytes(prior, log, size)
      && (Tainted(log', run) <==> Tainted(log, run))
  {
    RunLedger.Closed(prior, log, run, turn, size, done);
    var log' := log + [TurnCheckpointed(run, turn, ModelRequest)];
    SameRecovery(log, log', run);
    assert Turns(prior, log, run) + {turn} == Turns(prior, log, run);
    BaseTrace(prior, log, run, size, done, []);
    BaseTrace(prior, log', run, size, RequestedCalls(Own(prior, log')), []);
    hide Trace;
    AliveStops(prior, log, run, size, cap, tainted);
    AliveStops(prior, log', run, size, cap, tainted);
  }

  /**
   Ensuring the ending again after the loop has done so changes nothing, and makes
   up for a loop that could not.
  */
  lemma EnsuredAgain(prior: seq<Record>, log: seq<Record>, log': seq<Record>, run: nat, turn: nat, cancelled: bool,
                     size: Block -> nat, cap: Limits, before: bool, unended: bool, tainted: bool)
    requires Continued(Error, prior, log, run, size, cap, before, tainted) && Replay(log).Some? && Replay(log').Some?
    requires log' == log || log' == log + [EndingRecord(run, turn, cancelled)]
    requires !unended ==> log' == Ended(log, run, turn, cancelled)
    requires unended ==> log' == log && !AlreadyEnded(Replay(log).value, run)
    ensures Settles(Error, prior, log', run, size, cap, unended, tainted)
  {
    if Stopped(Error, prior, log, run, size, cap, tainted) {
      EnsuredSettles(prior, log, log', run, turn, cancelled, size, cap, unended, tainted);
    } else if before {
      UnendedStopped(prior, log, run, size, cap, tainted);
      EnsuredSettles(prior, log, log', run, turn, cancelled, size, cap, unended, tainted);
    }
  }

  lemma UnendedStopped(prior: seq<Record>, log: seq<Record>, run: nat, size: Block -> nat, cap: Limits, tainted: bool)
    requires Settles(Error, prior, log, run, size, cap, true, tainted)
    ensures Stopped(Error, prior, log, run, size, cap, tainted)
  {
    RecoveryMatchesLog(log, run);
    EndingsSplit(log, run);
  }

  lemma EndContinues(end: TurnEnd, prior: seq<Record>, log: seq<Record>, log': seq<Record>, run: nat, turn: nat,
                     size: Block -> nat, cap: Limits, unended: bool)
    requires Ends(end, prior, log, log', run, turn, size, cap, 0) && !end.Closed?
    ensures Continued(if end.Paused? then WaitingApproval(end.approval) else Error, prior, log', run, size, cap,
                      unended, Tainted(log, run))
  {
    EndsStops(end, prior, log, log', run, turn, size, cap, 0);
    if end.Paused? {
      StoppedSettles(WaitingApproval(end.approval), prior, log', run, size, cap, unended, Tainted(log, run));
    }
  }

  method ContinueInner(k: AgentKernel, q: Q.KernelInputQueue?, c: Call, oracles: nat -> Oracle, run: nat, turn: nat, limits: Limits,
                       size: Block -> nat, ghost prior: seq<Record>, ghost done: seq<Call>, ghost rest: seq<Call>, ghost cap: Limits)
    returns (outcome: Outcome, turns: nat, calls: nat)
    requires k.Valid() && Bounded(limits) && Resumed(prior, k.log, run, turn, size, done, c, rest, cap) && QueueOk(q, k.log)
    requires limits.maxIterations <= cap.maxIterations && limits.maxBytes <= cap.maxBytes
    modifies k, q
    ensures k.Valid() && k.Steady() && QueueOk(q, k.log)
    ensures old(Clogged(q, k.log)) ==> Clogged(q, k.log) && !outcome.Completed? && turns == 0
    ensures Continued(outcome, prior, k.log, run, size, cap, k.unended, Tainted(old(k.log), run))
    ensures outcome.Completed? ==> exists i: nat :: FinalWord(k.log, run, oracles(i))
    ensures turns <= limits.maxIterations + 1 && calls <= turns * limits.maxAttempts
  {
    hide FinalWord;
    hide Base, Alive, Turns, OutputBytes, Continued, Tainted, Replay, Remaining, Ends, QueueOk, Clogged;
    turns, calls := 0, 0;
    ResumedFacts(prior, k.log, run, turn, size, done, c, rest, cap);
    AliveBytes(prior, k.log, run, size, cap);
    var remaining := RemainingToolCalls(k.log, k.St(), c.id);
    assert remaining == rest;
    var end := WalkRest(k, remaining, run, turn, size, prior, done + [c], cap);
    QueueLater(q, old(k.log), k.log);
    if end.Closed? {
      outcome, turns, calls := CloseAndLoop(k, q, oracles, run, turn, limits, size, prior, done + [c] + rest, cap);
    } else {
      EndContinues(end, prior, old(k.log), k.log, run, turn, size, cap, k.unended);
      outcome := if end.Paused? then WaitingApproval(end.approval) else Error;
    }
  }

  lemma AliveBytes(prior: seq<Record>, log: seq<Record>, run: nat, size: Block -> nat, cap: Limits)
    requires Alive(prior, log, run, size, cap)
    ensures OutputBytes(prior, log, size) <= cap.maxBytes
  {
  }

  /** A resumed run to its end; the nested ending handlers leave one ending. */
  method ContinueResumedRun(k: AgentKernel, q: Q.KernelInputQueue?, c: Call, oracles: nat -> Oracle, run: nat, turn: nat, limits: Limits,
                            size: Block -> nat, ghost prior: seq<Record>, ghost done: seq<Call>, ghost rest: seq<Call>,
                            ghost cap: Limits)
    returns (outcome: Outcome, turns: nat, calls: nat)
    requires k.Valid() && Bounded(limits) && Resumed(prior, k.log, run, turn, size, done, c, rest, cap) && QueueOk(q, k.log)
    requires limits.maxIterations <= cap.maxIterations && limits.maxBytes <= cap.maxBytes
    modifies k, q
    ensures k.Valid() && k.Steady() && QueueOk(q, k.log)
    ensures old(Clogged(q, k.log)) ==> Clogged(q, k.log) && !outcome.Completed? && turns == 0
    ensures Settles(outcome, prior, k.log, run, size, cap, k.unended, Tainted(old(k.log), run))
    ensures outcome.Error? && k.unended ==> k.StoreFailed()
    ensures outcome.Completed? ==> exists i: nat :: FinalWord(k.log, run, oracles(i))
    ensures turns <= limits.maxIterations + 1 && calls <= turns * limits.maxAttempts
  {
    hide FinalWord;
    hide Resumed, Settles, Stopped, Tainted, Replay, QueueOk, Clogged;
    outcome, turns, calls := ContinueInner(k, q, c, oracles, run, turn, limits, size, prior, done, rest, cap);
    if outcome.Error? {
      ghost var log0, before := k.log, k.unended;
      var cancelled: bool := *;
      var _ := k.EnsureRunTerminal(run, turn, cancelled);
      EnsuredAgain(prior, log0, k.log, run, turn, cancelled, size, cap, before, k.unended, Tainted(old(k.log), run));
      QueueLater(q, log0, k.log);
    }
  }

  // ------------------------------------------------------------------ resolving

  /** A run paused on `approval` inside its limits. */
  ghost predicate Resumable(prior: seq<Record>, log: seq<Record>, run: nat, turn: nat, size: Block -> nat,
                            done: seq<Call>, c: Call, approval: nat, rest: seq<Call>, cap: Limits) {
    && PausedRun(prior, log, run, turn, size, done, c, approval, rest)
    && Within(prior, log, run, size, cap) && cap.maxIterations <= U32_MAX
  }

  lemma ResolvedResumes(prior: seq<Record>, log: seq<Record>, log': seq<Record>, run: nat, turn: nat, size: Block -> nat,
                        done: seq<Call>, c: Call, approval: nat, rest: seq<Call>, cap: Limits)
    requires Resumable(prior, log, run, turn, size, done, c, approval, rest, cap)
    requires Grown(log, log') && Replay(log').Some? && Quiet(Replay(log').value, rest)
    requires Answered(log') == Answered(log) + [c.id]
    ensures Resumed(prior, log', run, turn, size, done, c, rest, cap)
  {
    ResolvedBase(prior, log, log', run, turn, size, done, c, approval, rest);
    BaseTrace(prior, log', run, size, done + [c], rest);
    hide Trace, Replay, Answered, RequestedCalls, Segment, CheckpointedTurns, AssistantBytes, FinishCount, Quiet, Own, Distinct;
  }

  /** What the paused state says about the approval, its call and its turn. */
  lemma PausedCall(prior: seq<Record>, log: seq<Record>, run: nat, turn: nat, size: Block -> nat,
                   done: seq<Call>, c: Call, approval: nat, rest: seq<Call>, cap: Limits)
    requires Resumable(prior, log, run, turn, size, done, c, approval, rest, cap)
    ensures
      && Replay(log).Some?
      && var s := Replay(log).value;
      && s.pending.Keys == {approval} && s.pending[approval].call == c.id && c.id in s.tools && s.tools[c.id].call == c
      && s.checkpoint == Some(Checkpoint(run, turn, WaitForApproval))
      && WaitingState(s, run, turn, c, approval, rest) && Distinct([c] + rest) && c.id !in Ids(rest)
  {
    NotHead(c, rest);
  }

  /** A resolved approval leaves the run alive, whether its call was answered, interrupted or only started. */
  lemma ResolvedAlive(prior: seq<Record>, log0: seq<Record>, log: seq<Record>, run: nat, turn: nat, size: Block -> nat,
                      done: seq<Call>, c: Call, approval: nat, rest: seq<Call>, cap: Limits)
    requires Resumable(prior, log0, run, turn, size, done, c, approval, rest, cap)
    requires Grown(log0, log) && Replay(log).Some? && Replay(log).value.pending == map[] && Answered(log) == Answered(log0)
    ensures Alive(prior, log, run, size, cap)
  {
    hide PausedRun, Trace, Replay, Turns, OutputBytes, Answered, FinishCount, Grown;
    assert Answered(log) == Answered(log0) + [];
    ResolvedTrace(prior, log0, log, run, turn, size, done, c, approval, rest, false);
    PausedUnfinished(prior, log0, run, turn, size, done, c, approval, rest);
    UnfinishedCount(prior, log0, log, run);
  }

  lemma PausedUnfinished(prior: seq<Record>, log: seq<Record>, run: nat, turn: nat, size: Block -> nat,
                         done: seq<Call>, c: Call, approval: nat, rest: seq<Call>)
    requires PausedRun(prior, log, run, turn, size, done, c, approval, rest)
    ensures Unfinished(prior, log, run)
  {
  }

  lemma DenialAnswers(c: Call, approval: nat, at: int, terminal: Terminal, message: nat)
    ensures Plain(DenialRecords(c, approval, at, terminal, message))
    ensures Answered(DenialRecords(c, approval, at, terminal, message)) == [c.id]
  {
    AnsweredThree(DenialRecords(c, approval, at, terminal, message));
  }

  lemma DenialHonest(log: seq<Record>, run: nat, turn: nat, c: Call, approval: nat, rest: seq<Call>, at: int, terminal: Terminal,
                     message: nat, w: World)
    requires Replay(log).Some? && Honest(Replay(log).value, w) && WaitingState(Replay(log).value, run, turn, c, approval, rest)
    requires Distinct([c] + rest) && terminal.isError && message !in Replay(log).value.messageIds
    ensures
      var next := ApplyAll(Replay(log).value, DenialRecords(c, approval, at, terminal, message));
      next.Some? ==> Honest(next.value, w)
  {
    ReplayOk(log);
    hide Replay, Honest, StateOk, WaitingState, Distinct, Quiet, Authorized, Timely, ApplyAll;
    DenialState(Replay(log).value, run, turn, c, approval, rest, at, terminal, message);
    if ApplyAll(Replay(log).value, DenialRecords(c, approval, at, terminal, message)).Some? {
      HonestAll(Replay(log).value, DenialRecords(c, approval, at, terminal, message), w, {c.id});
    }
  }

  /** A denied approval: resolution, error terminal and result message in one transaction. */
  method CommitDeniedResolution(k: AgentKernel, c: Call, approval: nat, at: int, run: nat, turn: nat, size: Block -> nat,
                                ghost prior: seq<Record>, ghost done: seq<Call>, ghost rest: seq<Call>, ghost cap: Limits)
    returns (ok: bool)
    requires k.Valid() && Resumable(prior, k.log, run, turn, size, done, c, approval, rest, cap)
    modifies k`log, k`faults, k`storeFaults, k`loadFaults
    ensures k.Valid() && k.Steady()
    ensures ok ==> k.log != old(k.log)
    ensures k.log != old(k.log) ==> |k.log| > |old(k.log)|
    ensures !ok && k.log != old(k.log) <==> k.loadFaults > old(k.loadFaults)
    ensures k.log != old(k.log) ==>
              Timely(old(k.St()), approval, at) && Resumed(prior, k.log, run, turn, size, done, c, rest, cap)
    ensures k.log != old(k.log) ==> Resolves(old(k.log), k.log, c, approval, DenyCall, at)
    ensures Tainted(k.log, run) <==> Tainted(old(k.log), run)
  {
    hide Resumable, Resumed, Replay, Answered, Plain, Quiet, WaitingState, Alive, Distinct, Honest, Resolves;
    PausedCall(prior, k.log, run, turn, size, done, c, approval, rest, cap);
    var ids;
    ok, ids := k.NewMessageIds(1);
    if !ok {
      return;
    }
    var payload: nat := *;
    var terminal := Terminal(true, payload);
    var rs := DenialRecords(c, approval, at, terminal, ids[0]);
    ghost var log0, s0 := k.log, k.St();
    DenialState(s0, run, turn, c, approval, rest, at, terminal, ids[0]);
    DenialAnswers(c, approval, at, terminal, ids[0]);
    DenialHonest(log0, run, turn, c, approval, rest, at, terminal, ids[0], k.world);
    AnsweredAppend(log0, rs);
    GrownBy(log0, rs);
    ok := k.AppendRecords(rs);
    if k.log != log0 {
      ResolvedResumes(prior, log0, k.log, run, turn, size, done, c, approval, rest, cap);
      SameRecovery(log0, k.log, run);
      DenialResolves(log0, c, approval, at, terminal, ids[0]);
    }
  }

  /** What a resolution writes first: the decision, then the call's start, or its refusal when it is denied. */
  predicate Resolves(log0: seq<Record>, log: seq<Record>, c: Call, approval: nat, decision: ApprovalDecision, at: int) {
    && |log| > |log0| + 1 && log[|log0|] == ApprovalResolved(approval, decision, at)
    && if decision == DenyCall then
         && log[|log0| + 1].ToolExecutionFinished? && log[|log0| + 1].call == c.id && log[|log0| + 1].terminal.isError
       else log[|log0| + 1] == ToolExecutionStarted(c.id)
  }

  lemma ResolvesLater(log0: seq<Record>, log1: seq<Record>, log: seq<Record>, c: Call, approval: nat, decision: ApprovalDecision, at: int)
    requires Resolves(log0, log1, c, approval, decision, at) && log1 <= log
    ensures Resolves(log0, log, c, approval, decision, at)
  {
  }

  lemma DenialResolves(log: seq<Record>, c: Call, approval: nat, at: int, terminal: Terminal, message: nat)
    requires terminal.isError
    ensures Resolves(log, log + DenialRecords(c, approval, at, terminal, message), c, approval, DenyCall, at)
  {
  }

  lemma GrantResolves(log: seq<Record>, log': seq<Record>, c: Call, approval: nat, decision: ApprovalDecision, at: int)
    requires decision != DenyCall && log + GrantRecords(c, approval, decision, at) <= log'
    ensures Resolves(log, log', c, approval, decision, at)
  {
    var all := log + GrantRecords(c, approval, decision, at);
    assert all[|log|] == log'[|log|] && all[|log| + 1] == log'[|log| + 1];
  }

  datatype Grant = Granted | Unresolved | Abandoned | Stranded

  /** The call was started but neither answered nor interrupted, no approval is open, and the run has no new ending. */
  ghost predicate LeftRunning(prior: seq<Record>, log: seq<Record>, run: nat, size: Block -> nat, cap: Limits, c: Call, tainted: bool) {
    && Within(prior, log, run, size, cap) && Trace(prior, log, run, size)
    && Executing(Replay(log).value, c) && Replay(log).value.pending == map[]
    && (Tainted(log, run) <==> tainted) && Endings(log, run) == One(tainted)
  }

  /** No new run and no compaction passes the state check, and there is no approval to resume. */
  predicate Stuck(s: State) {
    !CanStartRun(s) && s.pending == map[]
  }

  lemma LeftRunningIsStuck(prior: seq<Record>, log: seq<Record>, run: nat, size: Block -> nat, cap: Limits, c: Call, tainted: bool)
    requires LeftRunning(prior, log, run, size, cap, c, tainted)
    ensures Replay(log).Some? && Stuck(Replay(log).value)
  {
    ReplayOk(log);
  }

  lemma GrantAnswers(c: Call, approval: nat, decision: ApprovalDecision, at: int)
    ensures Plain(GrantRecords(c, approval, decision, at)) && Answered(GrantRecords(c, approval, decision, at)) == []
  {
    var rs := GrantRecords(c, approval, decision, at);
    assert rs[..1][..0] == [] && Answered(rs[..1]) == [];
  }

  lemma StrandedFacts(prior: seq<Record>, log: seq<Record>, log': seq<Record>, run: nat, size: Block -> nat, cap: Limits,
                      c: Call, rest: seq<Call>)
    requires Alive(prior, log', run, size, cap) && Replay(log).Some? && Replay(log').Some?
    requires RunningState(Replay(log').value, c, rest) && Replay(log').value.recovery == Replay(log).value.recovery
    ensures LeftRunning(prior, log', run, size, cap, c, Tainted(log, run))
  {
    RecoveryMatchesLog(log', run);
    EndingsSplit(log', run);
  }

  lemma AliveSettles(prior: seq<Record>, log: seq<Record>, run: nat, size: Block -> nat, cap: Limits, unended: bool, tainted: bool)
    requires Alive(prior, log, run, size, cap) && (unended <==> run !in Replay(log).value.recovery)
    ensures Settles(Error, prior, log, run, size, cap, unended, tainted)
  {
    RecoveryMatchesLog(log, run);
    EndingsSplit(log, run);
  }

  lemma ResumedAlive(prior: seq<Record>, log: seq<Record>, run: nat, turn: nat, size: Block -> nat,
                     done: seq<Call>, c: Call, rest: seq<Call>, cap: Limits)
    requires Resumed(prior, log, run, turn, size, done, c, rest, cap)
    ensures Alive(prior, log, run, size, cap)
  {
  }

  /**
   A granted approval: resolution and start, then execution and the committed result.
   The call is stranded exactly when nothing was written after the start; with a
   working store that is when the execution returned and no id or time was to be
   had for its result.
  */
  method CommitGranted(k: AgentKernel, c: Call, approval: nat, decision: ApprovalDecision, at: int,
                       run: nat, turn: nat, size: Block -> nat,
                       ghost prior: seq<Record>, ghost done: seq<Call>, ghost rest: seq<Call>, ghost cap: Limits)
    returns (ok: bool, ghost grant: Grant)
    requires k.Valid() && Resumable(prior, k.log, run, turn, size, done, c, approval, rest, cap) && decision != DenyCall
    modifies k
    ensures k.Valid() && k.Steady() && (ok <==> grant.Granted?)
    ensures grant.Unresolved? <==> k.log == old(k.log)
    ensures grant.Stranded? <==> k.log == old(k.log) + GrantRecords(c, approval, decision, at)
    ensures !grant.Unresolved? ==> Timely(old(k.St()), approval, at)
    ensures !grant.Unresolved? ==> Resolves(old(k.log), k.log, c, approval, decision, at)
    ensures grant.Unresolved? ==> k.unended == old(k.unended)
    ensures !k.StoreFailed() ==> (grant.Unresolved? <==> !Timely(old(k.St()), approval, at))
    ensures !k.StoreFailed() && Timely(old(k.St()), approval, at) ==> (grant.Abandoned? <==> k.world.exec(c.id).None?)
    ensures !k.StoreFailed() ==> (grant.Stranded? <==> Timely(old(k.St()), approval, at) && k.world.exec(c.id).Some? && k.PortFailed())
    ensures grant.Granted? ==> Resumed(prior, k.log, run, turn, size, done, c, rest, cap)
    ensures grant.Granted? ==> Served(k.St(), c.id, k.world)
    ensures grant.Granted? ==> |k.log| > |old(k.log) + GrantRecords(c, approval, decision, at)|
    ensures grant.Granted? ==> (Tainted(k.log, run) <==> Tainted(old(k.log), run))
    ensures grant.Abandoned? ==> Settles(Error, prior, k.log, run, size, cap, k.unended, Tainted(old(k.log), run))
    ensures grant.Abandoned? && k.unended ==> k.StoreFailed()
    ensures grant.Stranded? ==> k.PortFailed() && LeftRunning(prior, k.log, run, size, cap, c, Tainted(old(k.log), run))
  {
    hide Resumable, Resumed, Replay, Answered, Plain, Quiet, WaitingState, Alive, Distinct, Settles, LeftRunning, RunningState, Tainted, Executing, Uncertain, Timely, Honest, Resolves;
    var result := k.world.exec(c.id);
    ghost var log0, s0 := k.log, k.St();
    PausedCall(prior, k.log, run, turn, size, done, c, approval, rest, cap);
    GrantState(k.St(), run, turn, c, approval, rest, decision, at);
    var rs := GrantRecords(c, approval, decision, at);
    GrantAnswers(c, approval, decision, at);
    AnsweredAppend(log0, rs);
    GrownBy(log0, rs);
    HonestQuietly(log0, rs, k.world);
    ok := k.AppendRecords(rs);
    ghost var started := k.log;
    if started != log0 {
      StartedCall(prior, log0, started, run, turn, size, done, c, approval, rest, cap);
      GrantResolves(log0, started, c, approval, decision, at);
    }
    if !ok {
      return false, if started == log0 then Unresolved else Stranded;
    }
    RunningCall(k.St(), c, rest);
    if result.None? {
      var cancelled: bool := *;
      label abandoning:
      k.AbandonBatch([c], {}, run, turn, cancelled);
      ghost var storeFailed := k.StoreFailed@abandoning();
      NotInterrupted(started, k.log, c, {}, storeFailed);
      GrownTrans(log0, started, k.log);
      ResolvesLater(log0, started, k.log, c, approval, decision, at);
      ResolvedAlive(prior, log0, k.log, run, turn, size, done, c, approval, rest, cap);
      if k.log != started {
        AliveSettles(prior, k.log, run, size, cap, k.unended, Tainted(log0, run));
      }
      return false, if k.log == started then Stranded else Grant.Abandoned;
    }
    label committing:
    ok := k.CommitResults([c], map[c.id := result.value]);
    if k.log == started {
      grant := Stranded;
    } else {
      GrownTrans(log0, started, k.log);
      ResolvesLater(log0, started, k.log, c, approval, decision, at);
      Single(c);
      SettledOne(k.St(), c);
      AllServed(k.log, k.world);
      SettledRest(old@committing(k.St()), k.St(), c, rest);
      ResolvedResumes(prior, log0, k.log, run, turn, size, done, c, approval, rest, cap);
      SameRecovery(log0, k.log, run);
      ResumedAlive(prior, k.log, run, turn, size, done, c, rest, cap);
      if !ok {
        k.unended := run !in k.St().recovery;
        AliveSettles(prior, k.log, run, size, cap, k.unended, Tainted(log0, run));
      }
      grant := if ok then Granted else Grant.Abandoned;
    }
  }

  lemma StartedCall(prior: seq<Record>, log0: seq<Record>, log: seq<Record>, run: nat, turn: nat, size: Block -> nat,
                    done: seq<Call>, c: Call, approval: nat, rest: seq<Call>, cap: Limits)
    requires Resumable(prior, log0, run, turn, size, done, c, approval, rest, cap)
    requires Grown(log0, log) && Replay(log0).Some? && Replay(log).Some? && Answered(log) == Answered(log0)
    requires RunningState(Replay(log).value, c, rest) && Replay(log).value.recovery == Replay(log0).value.recovery
    ensures Alive(prior, log, run, size, cap) && LeftRunning(prior, log, run, size, cap, c, Tainted(log0, run))
    ensures Replay(log).value.pending == map[]
  {
    hide Resumable, Alive, Answered, LeftRunning, Replay, Grown;
    ResolvedAlive(prior, log0, log, run, turn, size, done, c, approval, rest, cap);
    StrandedFacts(prior, log0, log, run, size, cap, c, rest);
  }

  lemma NotInterrupted(log: seq<Record>, log': seq<Record>, c: Call, kept: set<nat>, storeFailed: bool)
    requires Replay(log).Some? && Replay(log').Some? && Executing(Replay(log).value, c) && c.id !in kept
    requires !storeFailed ==>
               forall d <- [c] :: if d.id in kept then Executing(Replay(log').value, d) else Uncertain(Replay(log').value, d.id)
    ensures log' == log ==> storeFailed
  {
    assert c in [c];
  }

  lemma RunningCall(s: State, c: Call, rest: seq<Call>)
    requires RunningState(s, c, rest)
    ensures Distinct([c]) && Ids([c]) == {c.id} && forall d <- [c] :: Executing(s, d)
  {
  }

  lemma SettledOne(s: State, c: Call)
    requires AllSettled(s, [c])
    ensures Settled(s, c.id)
  {
    assert c in [c];
  }

  /** The granted call was started and nothing was written after that. */
  predicate Strands(log: seq<Record>, log': seq<Record>, c: Call, approval: nat, decision: ApprovalDecision, at: int) {
    decision != DenyCall && log' == log + GrantRecords(c, approval, decision, at)
  }

  /**
   Resolves `approval`.  Unless it is open and inside its validity window, nothing
   changes.  Otherwise the resumed run settles like any other, except that it may
   strand the granted call.
  */
  method ResumeApproval(k: AgentKernel, q: Q.KernelInputQueue?, approval: nat, decision: ApprovalDecision, at: int, oracles: nat -> Oracle,
                        limits: Limits, size: Block -> nat, ghost prior: seq<Record>, ghost run: nat, ghost turn: nat,
                        ghost done: seq<Call>, ghost c: Call, ghost open: nat, ghost rest: seq<Call>, ghost cap: Limits)
    returns (outcome: Outcome, turns: nat, calls: nat)
    requires k.Valid() && Bounded(limits)
    requires k.St().pending == map[] || Resumable(prior, k.log, run, turn, size, done, c, open, rest, cap)
    requires limits.maxIterations <= cap.maxIterations && limits.maxBytes <= cap.maxBytes && QueueOk(q, k.log)
    modifies k, q
    ensures k.Valid() && k.Steady() && QueueOk(q, k.log)
    ensures old(Clogged(q, k.log)) ==> Clogged(q, k.log) && !outcome.Completed? && turns == 0
    ensures k.log == old(k.log) ==> k.unended == old(k.unended)
    ensures !Timely(old(k.St()), approval, at) || k.log == old(k.log) ==> outcome.Error? && k.log == old(k.log)
    ensures Strands(old(k.log), k.log, c, open, decision, at) ==>
              && outcome.Error? && k.PortFailed() && LeftRunning(prior, k.log, run, size, cap, c, Tainted(old(k.log), run))
              && (k.StoreFailed() || k.world.exec(c.id).Some?)
    ensures k.log != old(k.log) && !Strands(old(k.log), k.log, c, open, decision, at) ==>
              && Settles(outcome, prior, k.log, run, size, cap, k.unended, Tainted(old(k.log), run))
              && (outcome.Error? && k.unended ==> k.StoreFailed())
    ensures k.log != old(k.log) ==> Resolves(old(k.log), k.log, c, approval, decision, at)
    ensures outcome.Completed? ==> exists i: nat :: FinalWord(k.log, run, oracles(i))
    ensures turns <= limits.maxIterations + 1 && calls <= turns * limits.maxAttempts
  {
    hide FinalWord, Resolves;
    hide Resumable, Resumed, Replay, WaitingState, Alive, Settles, LeftRunning, Tainted, Distinct, QueueOk, Clogged;
    outcome, turns, calls := Error, 0, 0;
    if * {
      return;
    }
    var s := k.St();
    if approval !in s.pending || s.checkpoint.None? || !s.checkpoint.value.next.WaitForApproval? || s.pending[approval].call !in s.tools {
      return;
    }
    PausedCall(prior, k.log, run, turn, size, done, c, open, rest, cap);
    var call, run', turn' := s.tools[s.pending[approval].call].call, s.checkpoint.value.run, s.checkpoint.value.turn;
    if decision == DenyCall {
      var ok := CommitDeniedResolution(k, call, approval, at, run', turn', size, prior, done, rest, cap);
      QueueLater(q, old(k.log), k.log);
      if !ok {
        if k.log != old(k.log) {
          k.unended := run' !in k.St().recovery;
          ResumedAlive(prior, k.log, run', turn', size, done, call, rest, cap);
          AliveSettles(prior, k.log, run', size, cap, k.unended, Tainted(old(k.log), run'));
        }
        return;
      }
      if * {
        ghost var log1 := k.log;
        FailResumed(k, call, run', turn', size, prior, done, rest, cap);
        QueueLater(q, log1, k.log);
        ResolvesLater(old(k.log), log1, k.log, call, approval, decision, at);
        return;
      }
    } else {
      if * {
        return;
      }
      var ok, _ := CommitGranted(k, call, approval, decision, at, run', turn', size, prior, done, rest, cap);
      QueueLater(q, old(k.log), k.log);
      if !ok {
        return;
      }
    }
    ghost var resolved := k.log;
    outcome, turns, calls := ContinueResumedRun(k, q, call, oracles, run', turn', limits, size, prior, done, rest, cap);
    ResolvesLater(old(k.log), resolved, k.log, call, approval, decision, at);
  }

  /** A denied approval whose continuation cannot start still ends the run. */
  method FailResumed(k: AgentKernel, c: Call, run: nat, turn: nat, size: Block -> nat,
                     ghost prior: seq<Record>, ghost done: seq<Call>, ghost rest: seq<Call>, ghost cap: Limits)
    requires k.Valid() && Resumed(prior, k.log, run, turn, size, done, c, rest, cap)
    modifies k
    ensures k.Valid() && k.Steady()
    ensures Settles(Error, prior, k.log, run, size, cap, k.unended, Tainted(old(k.log), run))
    ensures k.unended ==> k.StoreFailed()
  {
    hide Alive, Settles, Stopped, Tainted, Replay, Base;
    AliveStops(prior, k.log, run, size, cap, Tainted(k.log, run));
    var cancelled: bool := *;
    var _ := k.EnsureRunTerminal(run, turn, cancelled);
    EnsuredSettles(prior, old(k.log), k.log, run, turn, cancelled, size, cap, k.unended, Tainted(old(k.log), run));
  }

  // --------------------------------------------------------------- whole runs

  datatype Resolution = Resolution(approval: nat, decision: ApprovalDecision, at: int)

  /**
   How a run stands after any number of pauses and resolutions.  A completed run has
   one ending, and a second one exactly when it was interrupted before it finished.
   A failed run has one as well, unless the store kept it from being ended or its
   granted call is stranded; then it has none.
  */
  ghost predicate Final(outcome: Outcome, prior: seq<Record>, log: seq<Record>, run: nat, size: Block -> nat, limits: Limits,
                        unended: bool) {
    && Within(prior, log, run, size, limits) && Trace(prior, log, run, size)
    && match outcome
       case Completed => Endings(log, run) == 1 + One(Tainted(log, run)) && AllAnswered(prior, log)
       case WaitingApproval(approval) => PausedOn(prior, log, run, size, approval) && Endings(log, run) == One(Tainted(log, run))
       case Error =>
         || Endings(log, run) == 1 + One(FinishCount(log, run) == 1 && Tainted(log, run))
         || (Endings(log, run) == 0 && (unended || exists c :: LeftRunning(prior, log, run, size, limits, c, false)))
  }

  lemma SettlesFinal(outcome: Outcome, prior: seq<Record>, log: seq<Record>, run: nat, size: Block -> nat, limits: Limits,
                     unended: bool, tainted: bool)
    requires Settles(outcome, prior, log, run, size, limits, unended, tainted)
    ensures Final(outcome, prior, log, run, size, limits, unended)
  {
    hide Within, Trace;
    assert Replay(log).Some? by { TraceReplays(prior, log, run, size); }
    RecoveryMatchesLog(log, run);
    EndingsSplit(log, run);
    if outcome.WaitingApproval? {
      hide PausedRun;
      var turn, done, c, rest :| PausedRun(prior, log, run, turn, size, done, c, outcome.approval, rest);
      PausedUnfinished(prior, log, run, turn, size, done, c, outcome.approval, rest);
    }
  }

  lemma TraceReplays(prior: seq<Record>, log: seq<Record>, run: nat, size: Block -> nat)
    requires Trace(prior, log, run, size)
    ensures Replay(log).Some?
  {
  }

  lemma StrandedFinal(prior: seq<Record>, log: seq<Record>, run: nat, size: Block -> nat, limits: Limits, c: Call, tainted: bool,
                      unended: bool)
    requires LeftRunning(prior, log, run, size, limits, c, tainted)
    ensures Final(Error, prior, log, run, size, limits, unended)
  {
    RecoveryMatchesLog(log, run);
    EndingsSplit(log, run);
  }

  /** An open approval can be resumed, whatever the run returned. */
  lemma OpenResumes(prior: seq<Record>, log: seq<Record>, run: nat, size: Block -> nat, limits: Limits)
      returns (turn: nat, done: seq<Call>, c: Call, approval: nat, rest: seq<Call>)
    requires Trace(prior, log, run, size) && Within(prior, log, run, size, limits) && Bounded(limits)
    requires Replay(log).value.pending != map[]
    ensures Resumable(prior, log, run, turn, size, done, c, approval, rest, limits)
  {
    hide PausedRun, Within;
    approval :| PausedOn(prior, log, run, size, approval);
    turn, done, c, rest :| PausedRun(prior, log, run, turn, size, done, c, approval, rest);
  }

  /** A pause that failed after its write: with a working store the run is interrupted and can still be resumed. */
  lemma FailedPauseResumes(prior: seq<Record>, log: seq<Record>, run: nat, size: Block -> nat, limits: Limits, tainted: bool)
      returns (turn: nat, done: seq<Call>, c: Call, approval: nat, rest: seq<Call>)
    requires Settles(Error, prior, log, run, size, limits, false, tainted) && Bounded(limits)
    requires Replay(log).value.pending != map[]
    ensures Resumable(prior, log, run, turn, size, done, c, approval, rest, limits) && Tainted(log, run)
    ensures Endings(log, run) == 1
  {
    hide Trace, Within, Replay, Resumable;
    turn, done, c, approval, rest := OpenResumes(prior, log, run, size, limits);
    PausedCall(prior, log, run, turn, size, done, c, approval, rest, limits);
    ResumableUnfinished(prior, log, run, turn, size, done, c, approval, rest, limits);
  }

  lemma ResumableUnfinished(prior: seq<Record>, log: seq<Record>, run: nat, turn: nat, size: Block -> nat,
                            done: seq<Call>, c: Call, approval: nat, rest: seq<Call>, cap: Limits)
    requires Resumable(prior, log, run, turn, size, done, c, approval, rest, cap)
    ensures FinishCount(log, run) == 0
  {
  }

  lemma FinalTrace(outcome: Outcome, prior: seq<Record>, log: seq<Record>, run: nat, size: Block -> nat, limits: Limits, unended: bool)
    requires Final(outcome, prior, log, run, size, limits, unended)
    ensures Trace(prior, log, run, size) && Within(prior, log, run, size, limits)
  {
  }

  /**
   A new run with whatever resolutions a host submits while an approval is open,
   also after a pause that failed and was recorded as an interruption.  Across all
   pauses the limits hold and calls are answered once and in source order.
  */
  method RunAcrossPauses(k: AgentKernel, q: Q.KernelInputQueue?, resolutions: seq<Resolution>, oracles: nat -> nat -> Oracle, limits: Limits, size: Block -> nat)
    returns (outcome: Outcome, run: nat, refused: bool)
    requires k.Valid() && Bounded(limits) && QueueOk(q, k.log)
    modifies k, q
    ensures k.Valid() && k.Steady() && QueueOk(q, k.log) && run !in RunIds(old(k.log))
    ensures refused ==> outcome.Error? && k.log == old(k.log)
    ensures !refused ==> Final(outcome, old(k.log), k.log, run, size, limits, k.unended)
    ensures !refused && outcome.Error? && k.unended && Endings(k.log, run) == 0 ==> k.PortFailed()
    ensures outcome.Completed? ==> exists j: nat, i: nat :: FinalWord(k.log, run, oracles(j)(i))
  {
    hide FinalWord;
    hide Settles, Tainted, Resumable, LeftRunning, Replay, Timely, RunIds, Final, Trace, Within, Strands, Bounded, QueueOk, Clogged, Endings;
    var prior := k.log;
    var turns, calls;
    outcome, run, turns, calls := Run(k, q, oracles(0), limits, size);
    refused := outcome.Error? && k.log == prior;
    if refused {
      return;
    }
    SettlesFinal(outcome, prior, k.log, run, size, limits, k.unended, false);
    for i := 0 to |resolutions|
      invariant k.Valid() && k.Steady() && QueueOk(q, k.log)
      invariant Final(outcome, prior, k.log, run, size, limits, k.unended)
      invariant outcome.Error? && k.unended && Endings(k.log, run) == 0 ==> k.PortFailed()
      invariant outcome.Completed? ==> exists j: nat, i: nat :: FinalWord(k.log, run, oracles(j)(i))
    {
      FinalTrace(outcome, prior, k.log, run, size, limits, k.unended);
      if k.St().pending != map[] {
        outcome := ResumeOnce(k, q, outcome, resolutions[i], oracles(i + 1), limits, size, run, prior);
      }
    }
  }

  method ResumeOnce(k: AgentKernel, q: Q.KernelInputQueue?, last: Outcome, r: Resolution, oracles: nat -> Oracle,
                    limits: Limits, size: Block -> nat, run: nat, ghost prior: seq<Record>) returns (outcome: Outcome)
    requires k.Valid() && Bounded(limits) && k.St().pending != map[] && QueueOk(q, k.log)
    requires Final(last, prior, k.log, run, size, limits, k.unended)
    modifies k, q
    ensures k.Valid() && k.Steady() && QueueOk(q, k.log)
    ensures Final(outcome, prior, k.log, run, size, limits, k.unended)
    ensures k.log == old(k.log) ==> outcome == last && k.unended == old(k.unended)
    ensures k.log != old(k.log) && outcome.Error? && Endings(k.log, run) == 0 ==> k.PortFailed()
    ensures k.log != old(k.log) && outcome.Completed? ==> exists i: nat :: FinalWord(k.log, run, oracles(i))
  {
    hide FinalWord;
    hide Settles, Tainted, Resumable, LeftRunning, Replay, Timely, Final, Trace, Within, Strands, Bounded, QueueOk, Clogged, Endings;
    var before := k.log;
    FinalTrace(last, prior, k.log, run, size, limits, k.unended);
    ghost var turn, done, c, open, rest := OpenResumes(prior, k.log, run, size, limits);
    var next, turns, calls := ResumeApproval(k, q, r.approval, r.decision, r.at, oracles, limits, size,
                                             prior, run, turn, done, c, open, rest, limits);
    if k.log == before {
      outcome := last;
    } else {
      outcome := next;
      if Strands(before, k.log, c, open, r.decision, r.at) {
        StrandedFinal(prior, k.log, run, size, limits, c, Tainted(before, run), k.unended);
      } else {
        SettlesFinal(next, prior, k.log, run, size, limits, k.unended, Tainted(before, run));
        SettlesNone(next, prior, k.log, run, size, limits, k.unended, Tainted(before, run));
      }
    }
  }

  lemma SettlesNone(outcome: Outcome, prior: seq<Record>, log: seq<Record>, run: nat, size: Block -> nat, limits: Limits,
                    unended: bool, tainted: bool)
    requires Settles(outcome, prior, log, run, size, limits, unended, tainted)
    ensures outcome.Error? && Endings(log, run) == 0 ==> unended
  {
  }
}

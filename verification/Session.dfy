/**
 Whole sessions: any sequence of runs, resolutions, compactions and configuration
 changes submitted to one kernel, and two sessions worth naming.
*/
module Session {
  import opened Basics
  import opened SessionLog
  import opened ToolRecords
  import opened RunCounters
  import opened RunEndings
  import opened Kernel
  import opened RunLedger
  import opened RunLoop
  import opened Resume
  import opened QueuedInput
  import opened CallOutcomes
  import opened Scheduler
  import Q = InputQueue
  import TT = ToolTurn

  // ------------------------------------------------------------ every session

  datatype Command =
    | StartRun(limits: Limits)
    | Resolve(resolution: Resolution, limits: Limits)
    | Compaction(summary: Message)
    | Configure

  predicate Allows(cap: Limits, command: Command) {
    (command.StartRun? || command.Resolve?) ==>
      && Bounded(command.limits)
      && command.limits.maxIterations <= cap.maxIterations && command.limits.maxBytes <= cap.maxBytes
  }

  ghost predicate OpenFor(log: seq<Record>, size: Block -> nat, cap: Limits, prior: seq<Record>, run: nat) {
    Trace(prior, log, run, size) && Within(prior, log, run, size, cap)
  }

  /** Every run finished at most once, and an open approval belongs to a paused run that can be resumed. */
  ghost predicate SessionOk(log: seq<Record>, size: Block -> nat, cap: Limits) {
    && Replay(log).Some? && (forall run :: FinishCount(log, run) <= 1)
    && (Replay(log).value.pending == map[] || exists prior, run: nat :: OpenFor(log, size, cap, prior, run))
  }

  lemma {:induction false} OthersFinishNothing(rs: seq<Record>, run: nat, other: nat)
    requires OnlyCheckpointsOf(rs, run) && other != run
    ensures FinishCount(rs, other) == 0
  {
    if rs != [] {
      assert rs == rs[..|rs| - 1] + [rs[|rs| - 1]];
      OthersFinishNothing(rs[..|rs| - 1], run, other);
    }
  }

  /** What a run appended after `prior` leaves the finishes of every other run alone. */
  lemma FinishesKept(prior: seq<Record>, log: seq<Record>, run: nat)
    requires FinishesOnce(prior, log, run)
    ensures forall other :: other != run ==> FinishCount(log, other) == FinishCount(prior, other)
  {
    forall other | other != run ensures FinishCount(log, other) == FinishCount(prior, other) {
      assert log == prior + Own(prior, log);
      FinishesAppend(prior, Own(prior, log), other);
      OthersFinishNothing(Own(prior, log), run, other);
    }
  }

  lemma TraceSession(prior: seq<Record>, log0: seq<Record>, log: seq<Record>, run: nat, size: Block -> nat, cap: Limits)
    requires Trace(prior, log, run, size) && Within(prior, log, run, size, cap)
    requires SessionOk(log0, size, cap) && (log0 == prior || FinishesOnce(prior, log0, run))
    ensures SessionOk(log, size, cap)
  {
    hide AnswersInOrder, PausedOn;
    assert OpenFor(log, size, cap, prior, run);
    hide Within, OpenFor, FinishCount, NoCheckpointOf, OnlyCheckpointsOf, Own;
    FinishesKept(prior, log, run);
    if log0 != prior {
      FinishesKept(prior, log0, run);
    }
  }

  lemma WithinMore(prior: seq<Record>, log: seq<Record>, run: nat, size: Block -> nat, limits: Limits, cap: Limits)
    requires Within(prior, log, run, size, limits)
    requires limits.maxIterations <= cap.maxIterations && limits.maxBytes <= cap.maxBytes
    ensures Within(prior, log, run, size, cap)
  {
  }

  lemma SettledTrace(outcome: Outcome, prior: seq<Record>, log: seq<Record>, run: nat, size: Block -> nat, cap: Limits,
                     unended: bool, tainted: bool)
    requires Settles(outcome, prior, log, run, size, cap, unended, tainted)
    ensures Trace(prior, log, run, size) && Within(prior, log, run, size, cap)
  {
  }

  lemma LeftTrace(prior: seq<Record>, log: seq<Record>, run: nat, size: Block -> nat, cap: Limits, c: Call, tainted: bool)
    requires LeftRunning(prior, log, run, size, cap, c, tainted)
    ensures Trace(prior, log, run, size) && Within(prior, log, run, size, cap)
  {
  }

  lemma TraceOnce(prior: seq<Record>, log: seq<Record>, run: nat, size: Block -> nat)
    requires Trace(prior, log, run, size)
    ensures FinishesOnce(prior, log, run)
  {
  }

  lemma NeutralSession(log: seq<Record>, size: Block -> nat, cap: Limits, r: Record)
    requires SessionOk(log, size, cap) && Neutral(log, r)
    ensures SessionOk(log + [r], size, cap)
  {
    forall run ensures FinishCount(log + [r], run) <= 1 {
      FinishesAppend(log, [r], run);
      NoFinishes([r], run);
    }
    hide Plain, Answered, FinishCount, Trace, Within;
    if Replay(log).value.pending != map[] {
      var prior, run: nat :| OpenFor(log, size, cap, prior, run);
      TraceKept(prior, log, run, size, r);
      NeutralWithin(prior, log, run, size, cap, r);
      assert OpenFor(log + [r], size, cap, prior, run);
    }
  }

  lemma NeutralWithin(prior: seq<Record>, log: seq<Record>, run: nat, size: Block -> nat, cap: Limits, r: Record)
    requires Within(prior, log, run, size, cap) && Plain([r])
    ensures Within(prior, log + [r], run, size, cap)
  {
    hide CheckpointedTurns, AssistantBytes, Segment, RequestedCalls, FinishCount, Own;
    OwnAppend(prior, log, [r]);
    PlainCountsNothing(Own(prior, log), [r], run, size);
    FinishesAppend(log, [r], run);
    NoFinishes([r], run);
  }

  lemma CompactionIsNeutral(log: seq<Record>, summary: Message)
    requires Replay(log).Some? && Replay(log + [SessionCompacted(summary)]).Some?
    requires
      var s, s' := Replay(log).value, Replay(log + [SessionCompacted(summary)]).value;
      s' == s.(messageIds := s'.messageIds)
    ensures Neutral(log, SessionCompacted(summary))
  {
    OneCompaction(summary);
  }

  lemma ConfigurationIsNeutral(log: seq<Record>)
    requires Replay(log).Some? && Replay(log + [ConfigurationChanged]).Some?
    ensures Neutral(log, ConfigurationChanged)
  {
    assert [ConfigurationChanged][..0] == [];
    assert (log + [ConfigurationChanged])[..|log|] == log;
  }

  lemma NewSession(size: Block -> nat, cap: Limits)
    ensures SessionOk([SessionCreated], size, cap)
  {
    assert [SessionCreated][..0] == [];
    assert Replay([SessionCreated]) == Some(Created);
    forall run ensures FinishCount([SessionCreated], run) == 0 {
      assert FinishCount([], run) == 0;
    }
  }

  /** Resolves an approval in any such session. */
  method ResolveIn(k: AgentKernel, q: Q.KernelInputQueue?, r: Resolution, oracles: nat -> Oracle, limits: Limits,
                   size: Block -> nat, ghost cap: Limits) returns (calls: nat)
    requires k.Valid() && Bounded(limits) && Bounded(cap) && SessionOk(k.log, size, cap) && QueueOk(q, k.log)
    requires limits.maxIterations <= cap.maxIterations && limits.maxBytes <= cap.maxBytes
    modifies k, q
    ensures k.Valid() && k.Steady() && SessionOk(k.log, size, cap) && QueueOk(q, k.log)
    ensures old(Clogged(q, k.log)) ==> Clogged(q, k.log) && calls == 0
    ensures r.approval !in old(k.St()).pending ==> k.log == old(k.log)
  {
    hide SessionOk, Trace, Within, Resumable, Settles, LeftRunning, Replay, Tainted, Strands, Bounded, QueueOk, Clogged;
    ghost var prior, run, turn, done, c, open, rest := Paused(k.log, size, cap);
    ghost var log0 := k.log;
    var outcome, turns;
    outcome, turns, calls := ResumeApproval(k, q, r.approval, r.decision, r.at, oracles, limits, size,
                                            prior, run, turn, done, c, open, rest, cap);
    if k.log != log0 {
      assert Timely(Replay(log0).value, r.approval, r.at);
      if Strands(log0, k.log, c, open, r.decision, r.at) {
        LeftTrace(prior, k.log, run, size, cap, c, Tainted(log0, run));
      } else {
        SettledTrace(outcome, prior, k.log, run, size, cap, k.unended, Tainted(log0, run));
      }
      TraceSession(prior, log0, k.log, run, size, cap);
    }
  }

  lemma Paused(log: seq<Record>, size: Block -> nat, cap: Limits)
      returns (prior: seq<Record>, run: nat, turn: nat, done: seq<Call>, c: Call, open: nat, rest: seq<Call>)
    requires SessionOk(log, size, cap) && Bounded(cap)
    ensures Replay(log).Some?
    ensures Replay(log).value.pending == map[] ||
            (Resumable(prior, log, run, turn, size, done, c, open, rest, cap) && FinishesOnce(prior, log, run))
  {
    hide Trace, Within, Resumable, FinishesOnce;
    if Replay(log).value.pending == map[] {
      prior, run, turn, done, open, rest := [], 0, 0, [], 0, [];
      c := Call(0, 0, 0);
    } else {
      prior, run :| OpenFor(log, size, cap, prior, run);
      TraceOnce(prior, log, run, size);
      turn, done, c, open, rest := OpenResumes(prior, log, run, size, cap);
    }
  }

  method Serve(k: AgentKernel, q: Q.KernelInputQueue?, command: Command, oracles: nat -> Oracle, size: Block -> nat,
               ghost cap: Limits) returns (calls: nat)
    requires k.Valid() && Bounded(cap) && Allows(cap, command) && SessionOk(k.log, size, cap) && QueueOk(q, k.log)
    modifies k, q
    ensures k.Valid() && k.Steady() && SessionOk(k.log, size, cap) && QueueOk(q, k.log)
    ensures old(Clogged(q, k.log)) ==> Clogged(q, k.log) && calls == 0
    ensures Stuck(old(k.St())) && !command.Configure? ==> k.log == old(k.log)
    ensures Stuck(old(k.St())) ==> Stuck(k.St())
  {
    hide SessionOk, Trace, Within, Settles, Replay, Bounded, RunIds, QueueOk, Clogged;
    ghost var log0 := k.log;
    calls := 0;
    match command {
      case StartRun(limits) =>
        var outcome, run, turns;
        outcome, run, turns, calls := Run(k, q, oracles, limits, size);
        if k.log != log0 {
          SettledTrace(outcome, log0, k.log, run, size, limits, k.unended, false);
          WithinMore(log0, k.log, run, size, limits, cap);
          TraceSession(log0, log0, k.log, run, size, cap);
        }
      case Resolve(resolution, limits) =>
        calls := ResolveIn(k, q, resolution, oracles, limits, size, cap);
      case Compaction(summary) =>
        var _, _ := Compact(k, summary);
        QueueLater(q, log0, k.log);
        if k.log != log0 {
          CompactionIsNeutral(log0, summary);
          NeutralSession(log0, size, cap, SessionCompacted(summary));
        }
      case Configure =>
        HonestQuietly(k.log, [ConfigurationChanged], k.world);
        var _ := k.AppendRecords([ConfigurationChanged]);
        QueueLater(q, log0, k.log);
        if k.log != log0 {
          ConfigurationIsNeutral(log0);
          NeutralSession(log0, size, cap, ConfigurationChanged);
        }
    }
  }

  /**
   Any number of commands, accepted or refused, with ports that may fail at any
   point and hosts that enqueue input at any time.  The session stays honest about
   policy and tools, so every answer in it is the result of its own call.  Everything taken from the queue
   is in the log, a session with a stranded call stays stuck, and once the queue is
   clogged no provider is ever called again.
  */
  method ServeAll(k: AgentKernel, q: Q.KernelInputQueue?, commands: seq<Command>,
                  oracles: nat -> nat -> Oracle, size: Block -> nat, ghost cap: Limits) returns (calls: nat)
    requires k.Valid() && Bounded(cap) && (forall c <- commands :: Allows(cap, c)) && SessionOk(k.log, size, cap)
    requires QueueOk(q, k.log)
    modifies k, q
    ensures k.Valid() && k.Steady() && SessionOk(k.log, size, cap) && QueueOk(q, k.log)
    ensures old(Clogged(q, k.log)) ==> Clogged(q, k.log) && calls == 0
    ensures Stuck(old(k.St())) ==> Stuck(k.St())
    ensures Honest(k.St(), k.world)
  {
    hide SessionOk, Stuck, Replay, Bounded, Allows, QueueOk, Clogged, Honest;
    calls := 0;
    for i := 0 to |commands|
      invariant k.Valid() && k.Steady() && SessionOk(k.log, size, cap) && QueueOk(q, k.log)
      invariant old(Clogged(q, k.log)) ==> Clogged(q, k.log) && calls == 0
      invariant Stuck(old(k.St())) ==> Stuck(k.St())
    {
      var more := Serve(k, q, commands[i], oracles(i), size, cap);
      calls := calls + more;
    }
  }

  /** So in every session a run ends at most twice, and twice exactly if it finished and was also interrupted. */
  lemma EndsAtMostTwice(log: seq<Record>, size: Block -> nat, cap: Limits, run: nat)
    requires SessionOk(log, size, cap)
    ensures Endings(log, run) <= 2
    ensures Endings(log, run) == 2 <==> FinishCount(log, run) == 1 && Tainted(log, run)
  {
    RecoveryMatchesLog(log, run);
    EndingsSplit(log, run);
  }

  // ---------------------------------------------------------- reflushing turns

  /** The calls up to `d` are answered and the later ones untouched: only the last call leaves a session that can go on. */
  lemma AfterReflush(prior: seq<Record>, log0: seq<Record>, log: seq<Record>, run: nat, done: seq<Call>, calls: seq<Call>, n: nat)
    requires Base(prior, log0, run, done, calls) && WalkedTo(log0, log, calls, n)
    ensures Replay(log).Some? && n <= |calls|
    ensures CanStartRun(Replay(log).value) <==> n == |calls|
    ensures n < |calls| ==> Stuck(Replay(log).value)
  {
    hide Replay, Answered, Grown, Unfinished, RequestedCalls, CallIds;
    var s0, s := Replay(log0).value, Replay(log).value;
    if n < |calls| {
      FreshAt(s, calls, n, n);
    } else {
      assert calls[..n] == calls;
      forall id <- s.tools ensures s.tools[id].result.Some? {
        if id in Ids(calls) {
          var c :| c in calls && c.id == id;
        }
      }
    }
  }

  lemma EndingKeepsCalls(log: seq<Record>, run: nat, turn: nat, cancelled: bool)
    requires Replay(log).Some?
    ensures
      var log' := Ended(log, run, turn, cancelled);
      Replay(log').Some? && Replay(log').value == Replay(log).value.(recovery := Replay(log').value.recovery)
  {
    EndedAccepted(log, run, turn, cancelled);
    if Ended(log, run, turn, cancelled) != log {
      hide Replay, AlreadyEnded;
      EndingState(log, run, turn, cancelled);
    }
  }

  lemma EndingState(log: seq<Record>, run: nat, turn: nat, cancelled: bool)
    requires Replay(log).Some? && Replay(log + [EndingRecord(run, turn, cancelled)]).Some?
    ensures
      var s, s' := Replay(log).value, Replay(log + [EndingRecord(run, turn, cancelled)]).value;
      s' == s.(recovery := s'.recovery)
  {
    assert (log + [EndingRecord(run, turn, cancelled)])[..|log|] == log;
  }

  /**
   Exactly the calls up to `d` are answered, the run is ended, and a new run can
   start if and only if `d` was the last call; otherwise the session is stuck.
  */
  ghost predicate StoppedAt(log0: seq<Record>, log: seq<Record>, calls: seq<Call>, d: nat, run: nat) {
    && d < |calls| && Replay(log).Some? && AlreadyEnded(Replay(log).value, run)
    && Answered(log) == Answered(log0) + CallIds(calls[..d + 1])
    && (CanStartRun(Replay(log).value) <==> d + 1 == |calls|)
    && (d + 1 < |calls| ==> Stuck(Replay(log).value))
  }

  /** A declared turn whose walk reflushes at the denied call `d`, and the run's ending after it, when no port fails. */
  method ReflushedTurn(k: AgentKernel, calls: seq<Call>, run: nat, turn: nat, cancelled: bool,
                       ghost d: nat, ghost prior: seq<Record>, ghost done: seq<Call>)
    requires k.Valid() && Base(prior, k.log, run, done, calls)
    requires TT.FirstReflush(ClassesOf(calls, k.world), d) && d < |ClassesOf(calls, k.world)|
    requires AllowedRun(Invocations(calls, k.world.kind), ClassesOf(calls, k.world), d, k.world.exec)
    modifies k
    ensures k.Valid() && k.Steady()
    ensures !k.PortFailed() ==> StoppedAt(old(k.log), k.log, calls, d, run)
  {
    ghost var log0, vs := k.log, Invocations(calls, k.world.kind);
    assert Distinct(calls) && AllFresh(k.St(), calls);
    assert CallsOf(vs) == calls;
    hide Base, StoppedAt, Replay, Distinct, AllFresh, UptoAsk, TT.FirstReflush, AllowedRun, AlreadyEnded, Ended, TurnResult, Grown;
    hide Served, Settled, Honest, Invocations, Verdicts;
    var outcome := k.ProcessToolTurn(calls, run, turn);
    ghost var failed, log1 := k.PortFailed(), k.log;
    var _ := k.EnsureRunTerminal(run, turn, cancelled);
    if !k.PortFailed() {
      StopsThere(outcome, prior, log0, log1, k.log, vs, ClassesOf(calls, k.world), k.world.exec, run, turn, cancelled, d, done);
    }
  }

  lemma StopsThere(outcome: TurnOutcome, prior: seq<Record>, log0: seq<Record>, log1: seq<Record>, log: seq<Record>,
                   vs: seq<Invocation>, cs: seq<TT.Class>, exec: nat -> Option<Terminal>, run: nat, turn: nat, cancelled: bool,
                   d: nat, done: seq<Call>)
    requires |cs| <= |vs| && TurnResult(outcome, log0, log1, vs, cs, exec, false, run, turn)
    requires TT.FirstReflush(cs, d) && d < |cs| && AllowedRun(vs, cs, d, exec)
    requires Base(prior, log0, run, done, CallsOf(vs)) && Replay(log1).Some? && Replay(log).Some?
    requires log == Ended(log1, run, turn, cancelled)
    ensures StoppedAt(log0, log, CallsOf(vs), d, run)
  {
    hide Base, Answered, CallIds, WalkedTo, Replay, TT.FirstReflush, AllowedRun, Stuck, CanStartRun, AlreadyEnded, Ended, TurnResult;
    TurnStops(outcome, log0, log1, vs, cs, exec, run, turn, d);
    AfterReflush(prior, log0, log1, run, done, CallsOf(vs), d + 1);
    KeptByEnding(log1, log, run, turn, cancelled);
  }

  lemma TurnStops(outcome: TurnOutcome, log0: seq<Record>, log: seq<Record>, vs: seq<Invocation>, cs: seq<TT.Class>,
                  exec: nat -> Option<Terminal>, run: nat, turn: nat, d: nat)
    requires |cs| <= |vs| && TurnResult(outcome, log0, log, vs, cs, exec, false, run, turn)
    requires TT.FirstReflush(cs, d) && d < |cs| && AllowedRun(vs, cs, d, exec)
    ensures outcome == TurnOutcome.Failed && WalkedTo(log0, log, CallsOf(vs), d + 1)
    ensures Answered(log) == Answered(log0) + CallIds(CallsOf(vs)[..d + 1])
  {
    TT.ReflushFound(cs, d, |cs|);
  }

  lemma KeptByEnding(log: seq<Record>, log': seq<Record>, run: nat, turn: nat, cancelled: bool)
    requires Replay(log).Some? && Replay(log').Some? && log' == Ended(log, run, turn, cancelled)
    ensures CanStartRun(Replay(log').value) <==> CanStartRun(Replay(log).value)
    ensures Stuck(Replay(log').value) <==> Stuck(Replay(log).value)
    ensures Answered(log') == Answered(log) && AlreadyEnded(Replay(log').value, run)
  {
    EndingKeepsCalls(log, run, turn, cancelled);
    EndingAnswersNothing(log, run, turn, cancelled);
    EndedAccepted(log, run, turn, cancelled);
  }

  // -------------------------------------------------- sessions of one paused call

  /** Identities a new run with one call needs. */
  predicate NewIds(log: seq<Record>, c: Call, run: nat, message: nat, approval: nat) {
    && Replay(log).Some? && CanStartRun(Replay(log).value) && run !in RunIds(log)
    && c.id !in Replay(log).value.declared && c.id !in Replay(log).value.tools
    && message !in Replay(log).value.messageIds && approval !in Replay(log).value.approvalIds
  }

  function Says(text: Bytes, c: Call): seq<Block> {
    [Text(text), ToolCall(c, 0)]
  }

  /** A model turn that declares one call, and the pause on it. */
  function PauseOn(prior: seq<Record>, text: Bytes, c: Call, run: nat, turn: nat, message: nat, approval: nat): seq<Record> {
    prior + DeclareRecords(message, Says(text, c)) + WaitRecords(c, approval, 0, 10, run, turn)
  }

  lemma OneDeclared(text: Bytes, c: Call)
    ensures DeclaredCalls(Says(text, c)) == [c] && Distinct([c])
  {
    assert Says(text, c)[..1] == [Text(text)] && [Text(text)][..0] == [];
    assert DeclaredCalls([Text(text)]) == [] && DeclaredCalls([]) == [];
  }

  lemma OneState(s: State, text: Bytes, c: Call, message: nat)
    requires c.id !in s.declared && c.id !in s.tools && message !in s.messageIds
    ensures
      var next := ApplyAll(s, DeclareRecords(message, Says(text, c)));
      && next.Some? && Fresh(next.value, c) && next.value.approvalIds == s.approvalIds && next.value.recovery == s.recovery
      && next.value.pending == s.pending && next.value.messageIds == s.messageIds + {message}
  {
    OneDeclared(text, c);
    assert [c][1..] == [];
    var rs := DeclareRecords(message, Says(text, c));
    assert RequestRecords([c]) == [ToolCallRequested(c)] + RequestRecords([]) && RequestRecords([]) == [];
    DeclareAccepts(s.declared, s.tools, [c]);
    assert rs == [MessageCommitted(Assistant(message, Says(text, c))), ToolCallRequested(c)];
    var s1 := Apply(s, rs[0]);
    assert rs[1..] == [rs[1]] && [rs[1]][1..] == [];
    assert s1.Some? && ApplyAll(s1.value, [rs[1]]) == Apply(s1.value, rs[1]);
  }

  lemma OneBase(prior: seq<Record>, text: Bytes, c: Call, run: nat, message: nat, approval: nat, size: Block -> nat)
    requires NewIds(prior, c, run, message, approval)
    ensures
      var log := prior + DeclareRecords(message, Says(text, c));
      && Replay(log).Some? && Base(prior, log, run, [], [c]) && !Tainted(log, run)
      && Fresh(Replay(log).value, c) && approval !in Replay(log).value.approvalIds && Replay(log).value.pending == map[]
      && Replay(log).value.messageIds == Replay(prior).value.messageIds + {message}
  {
    hide Base, Ready, Head, DeclareRecords, Fresh, RunIds, DeclaredCalls;
    NewRunReady(prior, run, size, Limits(1, 0, 1));
    HeadOf(prior, prior, run, size, Progress(0, 0), Limits(1, 0, 1));
    OneDeclared(text, c);
    assert Own(prior, prior) == [];
    Declared(prior, prior, run, size, message, Says(text, c));
    OneState(Replay(prior).value, text, c, message);
    ReplayAppend(prior, DeclareRecords(message, Says(text, c)));
  }

  /** Wherever a run can start, one whose first call needs an approval leaves a resumable pause. */
  lemma PauseFollows(prior: seq<Record>, text: Bytes, c: Call, run: nat, turn: nat, message: nat, approval: nat, size: Block -> nat)
    requires NewIds(prior, c, run, message, approval)
    ensures
      var log := PauseOn(prior, text, c, run, turn, message, approval);
      && Replay(log).Some? && PausedRun(prior, log, run, turn, size, [], c, approval, []) && !Tainted(log, run)
      && Replay(log).value.messageIds == Replay(prior).value.messageIds + {message}
      && forall at :: 0 <= at < 10 ==> Timely(Replay(log).value, approval, at)
  {
    hide NewIds, Base, DeclareRecords, Fresh, PausedRun, WaitRecords, Timely, Replay;
    var log0 := prior + DeclareRecords(message, Says(text, c));
    OneBase(prior, text, c, run, message, approval, size);
    WaitState(log0, c, approval, run, turn);
    WaitPauses(prior, log0, c, approval, run, turn, size);
  }

  lemma WaitState(log: seq<Record>, c: Call, approval: nat, run: nat, turn: nat)
    requires Replay(log).Some? && Fresh(Replay(log).value, c) && approval !in Replay(log).value.approvalIds
    ensures
      var log' := log + WaitRecords(c, approval, 0, 10, run, turn);
      && Replay(log').Some? && Replay(log').value.recovery == Replay(log).value.recovery
      && Replay(log').value.messageIds == Replay(log).value.messageIds
      && forall at :: 0 <= at < 10 ==> Timely(Replay(log').value, approval, at)
  {
    assert log != [];
    hide Replay, WaitRecords;
    WaitAccepted(Replay(log).value, c, approval, 0, 10, run, turn);
    ReplayAppend(log, WaitRecords(c, approval, 0, 10, run, turn));
  }

  lemma WaitPauses(prior: seq<Record>, log: seq<Record>, c: Call, approval: nat, run: nat, turn: nat, size: Block -> nat)
    requires Base(prior, log, run, [], [c]) && Replay(log).Some? && Fresh(Replay(log).value, c)
    requires approval !in Replay(log).value.approvalIds
    ensures PausedRun(prior, log + WaitRecords(c, approval, 0, 10, run, turn), run, turn, size, [], c, approval, [])
  {
    assert log != [];
    hide Base, Fresh, PausedRun, PausedAt, WalkedTo, PausedLog, PausedState, Answered, Replay, WaitRecords;
    var log' := log + WaitRecords(c, approval, 0, 10, run, turn);
    WaitFacts(log, Replay(log).value, c, approval, 0, 10, run, turn);
    ReplayAppend(log, WaitRecords(c, approval, 0, 10, run, turn));
    WalkStart(log, [c]);
    OneDeclared([], c);
    WalkPaused(log, log, log', [c], 0, approval, run, turn);
    PausedBase(prior, log, log', run, turn, size, [], [c], 0, approval);
    assert [] + [c][..0] == [] && [c][1..] == [];
  }

  /** A paused run that is interrupted while it waits can still be resumed. */
  lemma InterruptedPause(prior: seq<Record>, log: seq<Record>, run: nat, turn: nat, size: Block -> nat,
                         done: seq<Call>, c: Call, approval: nat, rest: seq<Call>)
    requires PausedRun(prior, log, run, turn, size, done, c, approval, rest) && !Tainted(log, run)
    ensures
      var log' := log + [RunInterrupted(run, turn)];
      && Replay(log).Some? && Replay(log').Some?
      && PausedRun(prior, log', run, turn, size, done, c, approval, rest) && Tainted(log', run)
      && Replay(log').value.pending == Replay(log).value.pending && Replay(log').value.messageIds == Replay(log).value.messageIds
  {
    hide Answered, RequestedCalls, Segment, CheckpointedTurns, AssistantBytes, FinishCount, Plain, Own, Distinct, Unfinished;
    assert Ended(log, run, turn, false) == log + [EndingRecord(run, turn, false)];
    EndedAccepted(log, run, turn, false);
    EndingIsNeutral(log, run, turn, false);
    assert (log + [RunInterrupted(run, turn)])[..|log|] == log;
    PauseKept(prior, log, run, turn, size, done, c, approval, rest, RunInterrupted(run, turn));
  }

  lemma ApplyOne(s: State, r: Record)
    ensures ApplyAll(s, [r]) == Apply(s, r)
  {
    hide Apply;
    assert [r][1..] == [];
  }

  lemma DenialIds(s: State, c: Call, approval: nat, at: int, terminal: Terminal, message: nat)
    requires ApplyAll(s, DenialRecords(c, approval, at, terminal, message)).Some?
    ensures ApplyAll(s, DenialRecords(c, approval, at, terminal, message)).value.messageIds == s.messageIds + {message}
  {
    var rs := DenialRecords(c, approval, at, terminal, message);
    var s1 := Apply(s, rs[0]).value;
    assert rs[1..] == [rs[1], rs[2]] && ApplyAll(s, rs) == ApplyAll(s1, [rs[1], rs[2]]);
    var s2 := Apply(s1, rs[1]).value;
    assert [rs[1], rs[2]][1..] == [rs[2]] && ApplyAll(s, rs) == ApplyAll(s2, [rs[2]]);
    ApplyOne(s2, rs[2]);
  }

  /** Denying the last open call of a turn and closing the turn. */
  function DeniedTurn(log: seq<Record>, c: Call, run: nat, turn: nat, approval: nat, at: int, result: nat): seq<Record> {
    log + DenialRecords(c, approval, at, Terminal(true, 0), result) + [TurnCheckpointed(run, turn, ModelRequest)]
  }

  lemma DeniedHead(prior: seq<Record>, log: seq<Record>, run: nat, turn: nat, size: Block -> nat,
                   done: seq<Call>, c: Call, approval: nat, at: int, result: nat)
    requires PausedRun(prior, log, run, turn, size, done, c, approval, []) && Replay(log).Some?
    requires Timely(Replay(log).value, approval, at) && result !in Replay(log).value.messageIds
    ensures
      var log' := DeniedTurn(log, c, run, turn, approval, at, result);
      && Replay(log').Some? && Head(prior, log', run, size) && Replay(log').value.recovery == Replay(log).value.recovery
      && Replay(log').value.messageIds == Replay(log).value.messageIds + {result}
  {
    var s, rs := Replay(log).value, DenialRecords(c, approval, at, Terminal(true, 0), result);
    assert WaitingState(s, run, turn, c, approval, []) && Distinct([c] + []);
    hide Replay, PausedRun, WaitingState, Base, Head, Answered, Plain, Distinct, DenialRecords, Timely, Quiet;
    DenialState(s, run, turn, c, approval, [], at, Terminal(true, 0), result);
    DenialIds(s, c, approval, at, Terminal(true, 0), result);
    ReplayAppend(log, rs);
    DenialAnswers(c, approval, at, Terminal(true, 0), result);
    AnsweredAppend(log, rs);
    GrownBy(log, rs);
    ResolvedBase(prior, log, log + rs, run, turn, size, done, c, approval, []);
    RunLedger.Closed(prior, log + rs, run, turn, size, done + [c]);
    CheckpointState(log + rs, run, turn, ModelRequest);
  }

  lemma CheckpointState(log: seq<Record>, run: nat, turn: nat, next: NextAction)
    requires Replay(log).Some?
    ensures
      var log' := log + [TurnCheckpointed(run, turn, next)];
      Replay(log').Some? && Replay(log').value == Replay(log).value.(checkpoint := Some(Checkpoint(run, turn, next)))
  {
    assert (log + [TurnCheckpointed(run, turn, next)])[..|log|] == log;
  }

  /** Finishing an interrupted run from between two turns gives it its second ending. */
  lemma FinishedTwice(prior: seq<Record>, log: seq<Record>, run: nat, turn: nat, size: Block -> nat, message: nat)
    requires Replay(log).Some? && Head(prior, log, run, size) && Tainted(log, run) && message !in Replay(log).value.messageIds
    ensures
      var log' := log + [MessageCommitted(Assistant(message, []))] + [TurnCheckpointed(run, turn, FinishRun)];
      Replay(log').Some? && AllAnswered(prior, log') && Endings(log', run) == 2
  {
    assert DeclareRecords(message, []) == [MessageCommitted(Assistant(message, []))];
    Declared(prior, log, run, size, message, []);
    hide Replay, Head, Base, DeclareRecords, Done, AllAnswered;
    var log1 := log + [MessageCommitted(Assistant(message, []))];
    FinishDone(prior, log1, run, turn, size, RequestedCalls(Own(prior, log)));
    DoneEndings(log1 + [TurnCheckpointed(run, turn, FinishRun)], run, true);
  }

  /** Interrupted while it waits, then resumed by a denial and finished: every such run has two endings. */
  lemma InterruptedThenFinished(prior: seq<Record>, log: seq<Record>, run: nat, turn: nat, size: Block -> nat,
                                done: seq<Call>, c: Call, approval: nat, at: int, result: nat, message: nat, finish: nat)
    requires PausedRun(prior, log, run, turn, size, done, c, approval, []) && !Tainted(log, run) && Replay(log).Some?
    requires Timely(Replay(log).value, approval, at)
    requires result !in Replay(log).value.messageIds && message !in Replay(log).value.messageIds + {result}
    ensures
      var waiting := log + [RunInterrupted(run, turn)];
      var log' := DeniedTurn(waiting, c, run, turn, approval, at, result) +
                  [MessageCommitted(Assistant(message, []))] + [TurnCheckpointed(run, finish, FinishRun)];
      Replay(log').Some? && AllAnswered(prior, log') && Endings(log', run) == 2
  {
    hide PausedRun, Replay, Head, DeniedTurn, AllAnswered;
    InterruptedPause(prior, log, run, turn, size, done, c, approval, []);
    var waiting := log + [RunInterrupted(run, turn)];
    DeniedHead(prior, waiting, run, turn, size, done, c, approval, at, result);
    FinishedTwice(prior, DeniedTurn(waiting, c, run, turn, approval, at, result), run, finish, size, message);
  }

  /** Granting any paused call can strand it: the grant alone is accepted and leaves the session stuck. */
  lemma GrantAloneStrands(prior: seq<Record>, log: seq<Record>, run: nat, turn: nat, size: Block -> nat,
                          done: seq<Call>, c: Call, approval: nat, rest: seq<Call>, decision: ApprovalDecision, at: int, cap: Limits)
    requires Resumable(prior, log, run, turn, size, done, c, approval, rest, cap) && decision != DenyCall
    requires Replay(log).Some? && Timely(Replay(log).value, approval, at)
    ensures
      var log' := log + GrantRecords(c, approval, decision, at);
      Replay(log').Some? && LeftRunning(prior, log', run, size, cap, c, Tainted(log, run)) && Stuck(Replay(log').value)
  {
    assert log != [];
    hide Resumable, Replay, RunningState, LeftRunning, WaitingState, Stuck, Distinct, Answered, Timely, Grown;
    var rs := GrantRecords(c, approval, decision, at);
    PausedCall(prior, log, run, turn, size, done, c, approval, rest, cap);
    GrantState(Replay(log).value, run, turn, c, approval, rest, decision, at);
    ReplayAppend(log, rs);
    GrantAnswers(c, approval, decision, at);
    AnsweredAppend(log, rs);
    assert Answered(log) + [] == Answered(log);
    GrownBy(log, rs);
    StartedCall(prior, log, log + rs, run, turn, size, done, c, approval, rest, cap);
    LeftRunningIsStuck(prior, log + rs, run, size, cap, c, Tainted(log, run));
  }

  // ----------------------------------------------------- bytes a run leaves behind

  /** A turn whose one call was refused, and then the run's interruption before the turn's checkpoint. */
  function RefusedTurn(prior: seq<Record>, text: Bytes, c: Call, run: nat, turn: nat, message: nat, result: nat): seq<Record> {
    prior + DeclareRecords(message, Says(text, c)) + DenyRecords(c, Terminal(true, 0), result) + [RunInterrupted(run, turn)]
  }

  /** A declared call that is refused is answered, and nothing is left open. */
  lemma RefusedBase(prior: seq<Record>, log: seq<Record>, c: Call, run: nat, result: nat, size: Block -> nat)
    requires Base(prior, log, run, [], [c]) && Replay(log).Some? && Fresh(Replay(log).value, c)
    requires result !in Replay(log).value.messageIds
    ensures
      var log' := log + DenyRecords(c, Terminal(true, 0), result);
      && Base(prior, log', run, [c], []) && Replay(log').Some? && Replay(log').value.recovery == Replay(log).value.recovery
  {
    hide Base, Fresh, WalkedTo, Grown, Answered, DenyRecords, Replay, Settled, OnlyTools, Plain, Distinct, CallIds;
    var rs := DenyRecords(c, Terminal(true, 0), result);
    DenyAccepted(Replay(log).value, c, Terminal(true, 0), result);
    DenyIsPlain(c, result);
    AnsweredAppend(log, rs);
    GrownBy(log, rs);
    Accepted(log, rs);
    FreshOne(Replay(log).value, c);
    WalkStart(log, [c]);
    OneDeclared([], c);
    WalkOne(log, log, log + rs, [c], 0);
    WalkedBase(prior, log, log + rs, run, size, [], [c]);
    assert [] + [c] == [c];
  }

  lemma FreshOne(s: State, c: Call)
    requires Fresh(s, c)
    ensures AllFresh(s, [c])
  {
  }

  lemma RefusedState(prior: seq<Record>, text: Bytes, c: Call, run: nat, message: nat, approval: nat, result: nat, size: Block -> nat)
    requires NewIds(prior, c, run, message, approval) && result !in Replay(prior).value.messageIds + {message}
    ensures
      var log := prior + DeclareRecords(message, Says(text, c)) + DenyRecords(c, Terminal(true, 0), result);
      && Replay(log).Some? && CanStartRun(Replay(log).value) && !Tainted(log, run) && FinishCount(log, run) == 0
  {
    hide NewIds, Base, DeclareRecords, Fresh, DenyRecords, Replay, CanStartRun, FinishCount;
    var log0, rs := prior + DeclareRecords(message, Says(text, c)), DenyRecords(c, Terminal(true, 0), result);
    OneBase(prior, text, c, run, message, approval, size);
    RefusedBase(prior, log0, c, run, result, size);
    BaseCanStart(prior, log0 + rs, run, [c]);
  }

  lemma Accepted(log: seq<Record>, rs: seq<Record>)
    requires Replay(log).Some? && ApplyAll(Replay(log).value, rs).Some?
    ensures Replay(log + rs) == ApplyAll(Replay(log).value, rs)
  {
    ReplayAppend(log, rs);
  }

  lemma BaseCanStart(prior: seq<Record>, log: seq<Record>, run: nat, done: seq<Call>)
    requires Base(prior, log, run, done, [])
    ensures Replay(log).Some? && CanStartRun(Replay(log).value) && FinishCount(log, run) == 0
  {
  }

  lemma DenyIsPlain(c: Call, result: nat)
    ensures Plain(DenyRecords(c, Terminal(true, 0), result)) && Answered(DenyRecords(c, Terminal(true, 0), result)) == [c.id]
  {
    AnsweredThree(DenyRecords(c, Terminal(true, 0), result));
  }

  lemma DeclaredSegment(prior: seq<Record>, text: Bytes, c: Call, message: nat, size: Block -> nat)
    ensures Segment(prior + DeclareRecords(message, Says(text, c)), size) == Segment(prior, size) + |text|
  {
    OneDeclared(text, c);
    assert RequestRecords([c]) == [ToolCallRequested(c)] + RequestRecords([]) && RequestRecords([]) == [];
    var m, r := MessageCommitted(Assistant(message, Says(text, c))), ToolCallRequested(c);
    var log1 := prior + [m];
    assert prior + DeclareRecords(message, Says(text, c)) == log1 + [r];
    assert (log1 + [r])[..|log1|] == log1 && log1[..|prior|] == prior;
    assert Says(text, c)[..1] == [Text(text)] && [Text(text)][..0] == [];
    assert ContentBytes([Text(text)], size) == ContentBytes([], size) + |text|;
    assert ContentBytes(Says(text, c), size) == |text|;
  }

  /**
   An accepted log on which the next run may start although an interrupted one left
   assistant bytes behind, which that run's rebuilt count will include.
  */
  lemma LeftoverSegment(prior: seq<Record>, text: Bytes, c: Call, run: nat, turn: nat, message: nat, approval: nat, result: nat, size: Block -> nat)
    requires NewIds(prior, c, run, message, approval) && result !in Replay(prior).value.messageIds + {message}
    ensures
      var log := RefusedTurn(prior, text, c, run, turn, message, result);
      && Replay(log).Some? && CanStartRun(Replay(log).value)
      && Segment(log, size) == Segment(prior, size) + |text|
  {
    var log0 := prior + DeclareRecords(message, Says(text, c));
    var log1 := log0 + DenyRecords(c, Terminal(true, 0), result);
    RefusedState(prior, text, c, run, message, approval, result, size);
    DeclaredSegment(prior, text, c, message, size);
    hide NewIds, Segment, DeclareRecords, Replay, DenyRecords, FinishCount;
    DenyIsPlain(c, result);
    PlainCountsNothing(log0, DenyRecords(c, Terminal(true, 0), result), run, size);
    EndingIsPlain(run, turn, false);
    PlainCountsNothing(log1, [EndingRecord(run, turn, false)], run, size);
    InterruptionAccepted(log1, run, turn);
  }

  lemma InterruptionAccepted(log: seq<Record>, run: nat, turn: nat)
    requires Replay(log).Some? && !Tainted(log, run)
    ensures
      var log' := log + [RunInterrupted(run, turn)];
      Replay(log').Some? && Replay(log').value == Replay(log).value.(recovery := Replay(log).value.recovery + {run})
  {
    assert (log + [RunInterrupted(run, turn)])[..|log|] == log;
  }

  // ---------------------------------------------------------- a smallest session

  const TheCall := Call(0, 0, 0)

  const AskedOnce: seq<Record> := [
    SessionCreated,
    MessageCommitted(Assistant(0, Says([], TheCall))),
    ToolCallRequested(TheCall),
    PolicyDecisionRecorded(0, RequireApproval),
    ApprovalRequested(0, 0, 0, 10),
    TurnCheckpointed(0, 0, WaitForApproval)
  ]

  const TwiceEnded: seq<Record> := AskedOnce + [
    RunInterrupted(0, 0),
    ApprovalResolved(0, DenyCall, 5),
    ToolExecutionFinished(0, Terminal(true, 0)),
    MessageCommitted(ToolResult(1, 0, 0, Terminal(true, 0))),
    TurnCheckpointed(0, 0, ModelRequest),
    MessageCommitted(Assistant(2, [])),
    TurnCheckpointed(0, 1, FinishRun)
  ]

  const Stranding: seq<Record> := AskedOnce + [ApprovalResolved(0, AllowOnce, 5), ToolExecutionStarted(0)]

  lemma {:induction false} TurnsAtMost(log: seq<Record>, run: nat)
    ensures |CheckpointedTurns(log, run)| <= |log|
  {
    if log != [] {
      TurnsAtMost(log[..|log| - 1], run);
    }
  }

  lemma SmallestShape()
    ensures PauseOn([SessionCreated], [], TheCall, 0, 0, 0, 0) == AskedOnce
  {
    OneDeclared([], TheCall);
    hide DeclaredCalls;
    assert RequestRecords([TheCall]) == [ToolCallRequested(TheCall)] + RequestRecords([]) && RequestRecords([]) == [];
  }

  lemma SmallestStart()
    ensures NewIds([SessionCreated], TheCall, 0, 0, 0)
    ensures Replay([SessionCreated]).Some? && Replay([SessionCreated]).value.messageIds == {}
  {
    assert [SessionCreated][..0] == [] && Replay([SessionCreated]) == Some(Created) && RunIds([]) == {};
  }

  lemma SmallestPause(size: Block -> nat)
    ensures PausedRun([SessionCreated], AskedOnce, 0, 0, size, [], TheCall, 0, []) && !Tainted(AskedOnce, 0)
    ensures Replay(AskedOnce).Some? && Replay(AskedOnce).value.messageIds == {0}
    ensures Timely(Replay(AskedOnce).value, 0, 5)
  {
    hide PausedRun, Replay, Timely, Tainted, NewIds, PauseOn;
    SmallestStart();
    SmallestShape();
    PauseFollows([SessionCreated], [], TheCall, 0, 0, 0, 0, size);
    var log := PauseOn([SessionCreated], [], TheCall, 0, 0, 0, 0);
    assert log == AskedOnce && {} + {0} == {0} && Timely(Replay(log).value, 0, 5);
  }

  lemma TwoEndings(size: Block -> nat)
    ensures Replay(TwiceEnded).Some? && Endings(TwiceEnded, 0) == 2
  {
    hide PausedRun, Replay, Tainted, Timely, AllAnswered;
    SmallestPause(size);
    InterruptedThenFinished([SessionCreated], AskedOnce, 0, 0, size, [], TheCall, 0, 5, 1, 2, 1);
    var waiting := AskedOnce + [RunInterrupted(0, 0)];
    assert DeniedTurn(waiting, TheCall, 0, 0, 0, 5, 1) + [MessageCommitted(Assistant(2, []))] + [TurnCheckpointed(0, 1, FinishRun)]
        == TwiceEnded;
  }

  /** The granted call is started and unanswered, its run has no ending, and the session is stuck. */
  lemma StrandedCall(size: Block -> nat)
    ensures Replay(Stranding).Some? && Executing(Replay(Stranding).value, TheCall)
    ensures Endings(Stranding, 0) == 0 && Stuck(Replay(Stranding).value)
  {
    hide PausedRun, Replay, Timely, Stuck, Trace, Executing, CheckpointedTurns, OutputBytes, FinishCount;
    SmallestPause(size);
    TurnsAtMost(Own([SessionCreated], AskedOnce), 0);
    var cap := Limits(U32_MAX, OutputBytes([SessionCreated], AskedOnce, size), 1);
    GrantAloneStrands([SessionCreated], AskedOnce, 0, 0, size, [], TheCall, 0, [], AllowOnce, 5, cap);
    assert AskedOnce + GrantRecords(TheCall, 0, AllowOnce, 5) == Stranding;
  }
}

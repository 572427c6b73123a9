/**
 The run loop: repeated model turns until the run completes, pauses on an approval
 or fails, and the resumption of a paused run.  Providers, policies and tools are
 arbitrary functions; whatever can fail may fail.
*/
module RunLoop {
  import opened Basics
  import opened SessionLog
  import opened ToolRecords
  import opened Scheduler
  import opened RunCounters
  import opened RunEndings
  import opened Kernel
  import opened RunLedger
  import opened QueuedInput
  import opened CallOutcomes
  import M = ModelTurn
  import Q = InputQueue
  import TT = ToolTurn

  datatype Limits = Limits(maxIterations: nat, maxBytes: nat, maxAttempts: nat)

  predicate Bounded(limits: Limits) {
    limits.maxIterations <= U32_MAX && limits.maxBytes <= USIZE_MAX && limits.maxAttempts > 0
  }

  /** The run's live counters. */
  datatype Progress = Progress(iterations: nat, bytes: nat)

  /** What becomes of a request: sent, refused, or over the context window, perhaps with a summary to compact to. */
  datatype Request = Sendable | Invalid | TooLarge | Compactable(summary: Option<Message>)

  /** What one pass of the loop meets outside the session. */
  datatype Oracle = Oracle(
    cancelled: bool,                 // the run is cancelled when the pass begins
    known: bool,                     // the session's model is registered with its provider
    inputFits: bool,                 // the request with the queued input can be built and is valid
    request: Request,
    provider: nat -> M.Stream,
    hosted: set<nat>,
    presentable: bool)               // the final output has the requested format

  datatype Outcome = Completed | WaitingApproval(approval: nat) | Error

  datatype Step = Again(progress: Progress, compacted: bool) | Stop(outcome: Outcome)

  predicate Tainted(log: seq<Record>, run: nat) {
    Replay(log).Some? && run in Replay(log).value.recovery
  }

  /** The live counters agree with the log; bytes may include what an earlier run left unclosed. */
  ghost predicate Tracks(prior: seq<Record>, log: seq<Record>, run: nat, size: Block -> nat, p: Progress) {
    && p.iterations == |Turns(prior, log, run)|
    && OutputBytes(prior, log, size) <= p.bytes <= OutputBytes(prior, log, size) + Segment(prior, size)
  }

  /** Limits over the whole run; a finishing turn is one more checkpointed turn. */
  ghost predicate Within(prior: seq<Record>, log: seq<Record>, run: nat, size: Block -> nat, cap: Limits) {
    && prior <= log
    && |Turns(prior, log, run)| <= cap.maxIterations + FinishCount(log, run)
    && OutputBytes(prior, log, size) <= cap.maxBytes
  }

  /** An unfinished run inside its limits. */
  ghost predicate Alive(prior: seq<Record>, log: seq<Record>, run: nat, size: Block -> nat, cap: Limits) {
    Unfinished(prior, log, run) && Within(prior, log, run, size, cap) && Trace(prior, log, run, size)
  }

  /** Every call the run requested is answered exactly once, in source order. */
  ghost predicate AllAnswered(prior: seq<Record>, log: seq<Record>) {
    Answered(Own(prior, log)) == CallIds(RequestedCalls(Own(prior, log)))
  }

  ghost predicate Stopped(outcome: Outcome, prior: seq<Record>, log: seq<Record>, run: nat, size: Block -> nat,
                          cap: Limits, tainted: bool) {
    && Within(prior, log, run, size, cap) && Trace(prior, log, run, size)
    && match outcome
       case Completed => Done(log, run, tainted) && AllAnswered(prior, log)
       case WaitingApproval(approval) => PausedOn(prior, log, run, size, approval) && (Tainted(log, run) <==> tainted)
       case Error => Halted(log, run, tainted)
  }

  // ------------------------------------------------------------------ lemmas

  /** An ending record leaves the run's answers, counters and open approval alone. */
  lemma AliveEnded(prior: seq<Record>, log: seq<Record>, log': seq<Record>, run: nat, turn: nat, cancelled: bool,
                   size: Block -> nat, cap: Limits)
    requires Alive(prior, log, run, size, cap) && Replay(log').Some?
    requires log' == log || log' == log + [EndingRecord(run, turn, cancelled)]
    ensures Alive(prior, log', run, size, cap)
  {
    hide Trace, Replay, CheckpointedTurns, AssistantBytes, Segment, RequestedCalls, Answered, FinishCount, Plain, Own;
    if log' != log {
      EndingIsPlain(run, turn, cancelled);
      PlainAppended(prior, log, [EndingRecord(run, turn, cancelled)], run, size);
      EndedTrace(prior, log, run, size, turn, cancelled);
    }
  }

  lemma AliveStops(prior: seq<Record>, log: seq<Record>, run: nat, size: Block -> nat, cap: Limits, tainted: bool)
    requires Alive(prior, log, run, size, cap)
    ensures Stopped(Error, prior, log, run, size, cap, tainted)
  {
  }

  /** Plain records keep the state between turns and the counters. */
  lemma HeadGrown(prior: seq<Record>, log: seq<Record>, rs: seq<Record>, run: nat, size: Block -> nat)
    requires Head(prior, log, run, size) && Plain(rs) && Answered(rs) == [] && Replay(log + rs).Some?
    requires Replay(log + rs).value == Replay(log).value.(messageIds := Replay(log + rs).value.messageIds)
    ensures SameHead(prior, log, log + rs, run, size)
  {
    PlainAppended(prior, log, rs, run, size);
  }

  // ------------------------------------------------------------- small steps

  method CheckpointModelRequest(k: AgentKernel, run: nat, turn: nat) returns (ok: bool)
    requires k.Valid()
    modifies k
    ensures k.Valid() && k.Steady()
    ensures ok ==> k.log == old(k.log) + [TurnCheckpointed(run, turn, ModelRequest)]
    ensures !ok ==> k.PortFailed()
    ensures !ok ==> k.log == old(k.log) || k.log == old(k.log) + [TurnCheckpointed(run, turn, ModelRequest)]
  {
    HonestQuietly(k.log, [TurnCheckpointed(run, turn, ModelRequest)], k.world);
    CheckpointAccepted(k.St(), run, turn, ModelRequest);
    ok := k.AppendRecords([TurnCheckpointed(run, turn, ModelRequest)]);
    if ok {
      ok := k.Port();
    }
  }

  lemma CheckpointAccepted(s: State, run: nat, turn: nat, next: NextAction)
    ensures ApplyAll(s, [TurnCheckpointed(run, turn, next)]).Some?
  {
    assert [TurnCheckpointed(run, turn, next)][1..] == [];
  }

  /** The assistant message and one request record per declared call, then one event per call. */
  method CommitDeclarations(k: AgentKernel, m: nat, content: seq<Block>) returns (ok: bool)
    requires k.Valid()
    modifies k
    ensures k.Valid() && k.Steady()
    ensures ok ==> k.log == old(k.log) + DeclareRecords(m, content)
    ensures !ok ==> k.PortFailed() || ApplyAll(old(k.St()), DeclareRecords(m, content)).None?
    ensures !ok ==> k.log == old(k.log) || k.log == old(k.log) + DeclareRecords(m, content)
  {
    DeclarationsUndecided(m, content);
    HonestQuietly(k.log, DeclareRecords(m, content), k.world);
    ok := k.AppendRecords(DeclareRecords(m, content));
    if !ok {
      return;
    }
    var calls := DeclaredCalls(content);
    for i := 0 to |calls|
      invariant k.Valid() && k.Steady() && k.log == old(k.log) + DeclareRecords(m, content) && ok
    {
      ok := k.Port();
      if !ok {
        return;
      }
    }
  }

  lemma {:induction false} RequestsUndecided(calls: seq<Call>)
    ensures DecidesNothing(RequestRecords(calls))
    decreases |calls|
  {
    if calls != [] {
      RequestsUndecided(calls[1..]);
    }
  }

  lemma DeclarationsUndecided(m: nat, content: seq<Block>)
    ensures DecidesNothing(DeclareRecords(m, content)) && DeclareRecords(m, content) != []
  {
    RequestsUndecided(DeclaredCalls(content));
  }

  // --------------------------------------------------- before the model request

  /** A written snapshot keeps the state between turns and the counters. */
  lemma HeadFed(prior: seq<Record>, log: seq<Record>, s: Q.Snapshot, id: nat, run: nat, size: Block -> nat)
    requires Head(prior, log, run, size) && (forall m <- s.followUps :: m.User?)
    requires Replay(log + Q.Commits(Q.Messages(s, id))).Some?
    ensures SameHead(prior, log, log + Q.Commits(Q.Messages(s, id)), run, size)
  {
    assert Replay(log).Some?;
    hide Replay, Head, SameHead, Q.Commits;
    var ms := Q.Messages(s, id);
    MessagesAreUsers(s, id);
    CommitsArePlain(ms);
    SplitReplay(log, Q.Commits(ms));
    Q.CommitsAccepted(Replay(log).value, ms);
    HeadGrown(prior, log, Q.Commits(ms), run, size);
  }

  /** When the store accepts a snapshot under a new identity. */
  lemma SnapshotFits(s0: State, s: Q.Snapshot, id: nat)
    requires (forall m <- s.followUps :: m.User?) && id !in s0.messageIds && id !in Q.Identities(s.followUps)
    ensures ApplyAll(s0, Q.Commits(Q.Messages(s, id))).Some? <==> Q.Committable(s0.messageIds, s.followUps)
    ensures s != Q.NOTHING ==> Q.Commits(Q.Messages(s, id)) != []
  {
    MessagesAreUsers(s, id);
    Q.CommitsAccepted(s0, Q.Messages(s, id));
    Q.SteeringFits(s0.messageIds, s, id);
  }

  /**
   Commits queued input before the next model request, then acknowledges it; `valid`
   says whether the request with that input can be built and validated.  Hosts may
   enqueue at any time.  On success exactly the snapshot is in the log and out of
   the queue; a failure leaves the queue as it is, and the log too unless only the
   load after the write failed.
  */
  method ApplyQueuedInput(k: AgentKernel, q: Q.KernelInputQueue?, valid: bool, ghost prior: seq<Record>, run: nat, size: Block -> nat)
    returns (ok: bool, ghost taken: Q.Snapshot, ghost id: nat)
    requires k.Valid() && Head(prior, k.log, run, size) && (q != null ==> q.Valid())
    modifies k, q
    ensures k.Valid() && k.Steady() && SameHead(prior, old(k.log), k.log, run, size)
    ensures q == null ==> ok && k.log == old(k.log)
    ensures q != null ==> q.Valid() && Q.Within(old(q.Queued()), taken)
    ensures q != null ==>
              (ok <==> taken == Q.NOTHING ||
                       (valid && Q.Committable(old(k.St()).messageIds, taken.followUps) && !k.PortFailed()))
    ensures q != null && ok ==> k.log == old(k.log) + Q.Commits(Q.Messages(taken, id))
    ensures q != null && ok ==> q.batches == old(q.batches) + (if taken == Q.NOTHING then [] else [taken])
    ensures q != null && !ok ==> q.batches == old(q.batches) && Q.Within(taken, q.Queued())
    ensures !ok ==> k.log == old(k.log) || k.log == old(k.log) + Q.Commits(Q.Messages(taken, id))
    ensures !ok ==> (k.log != old(k.log) <==> k.loadFaults > old(k.loadFaults))
    ensures q != null && !ok && k.log != old(k.log) && taken.followUps != [] ==> Clogged(q, k.log)
  {
    hide Clogs;
    hide Head, SameHead, Q.Commits, Q.Messages, Q.Committable, Replay, Q.Identities, Q.Total, Q.SteeringBytes;
    taken, id := Q.NOTHING, 0;
    HeadSame(prior, k.log, run, size);
    if q == null {
      return true, taken, id;
    }
    var arrivals: seq<Q.Input> := *;
    Q.Arrive(q, arrivals);
    var s := q.TakeSnapshot();
    taken := s;
    if s.followUps == [] && s.steering == [] {
      NothingCommitted(k.log, id);
      return true, taken, id;
    }
    if s.steering != [] {
      ok := k.Port();
      if !ok {
        return;
      }
    }
    if !valid {
      return false, taken, id;
    }
    var newId := FreshId(k.St().messageIds + Q.Identities(s.followUps));
    id := newId;
    SnapshotFits(k.St(), s, newId);
    CommitsUndecided(Q.Messages(s, newId));
    HonestQuietly(k.log, Q.Commits(Q.Messages(s, newId)), k.world);
    ok := k.AppendRecords(Q.Commits(Q.Messages(s, newId)));
    if k.log != old(k.log) {
      HeadFed(prior, old(k.log), s, newId, run, size);
    }
    arrivals := *;
    Q.Arrive(q, arrivals);
    if ok {
      var acknowledged := q.Acknowledge(s);
      assert acknowledged;
    } else if k.log != old(k.log) && s.followUps != [] {
      UnacknowledgedClogs(old(k.log), s, newId, q.followUps, k.log);
    }
  }

  lemma {:induction false} CommitsUndecided(ms: seq<Message>)
    ensures DecidesNothing(Q.Commits(ms))
    decreases |ms|
  {
    if ms != [] {
      CommitsUndecided(ms[1..]);
    }
  }

  lemma HeadSame(prior: seq<Record>, log: seq<Record>, run: nat, size: Block -> nat)
    requires Head(prior, log, run, size)
    ensures SameHead(prior, log, log, run, size)
  {
  }

  lemma NothingCommitted(log: seq<Record>, id: nat)
    ensures log == log + Q.Commits(Q.Messages(Q.NOTHING, id))
  {
  }

  /** Still between turns, with the same counters and the same recovery state. */
  ghost predicate SameHead(prior: seq<Record>, log: seq<Record>, log': seq<Record>, run: nat, size: Block -> nat) {
    && Head(prior, log', run, size)
    && Turns(prior, log', run) == Turns(prior, log, run)
    && OutputBytes(prior, log', size) == OutputBytes(prior, log, size)
    && (Tainted(log', run) <==> Tainted(log, run))
  }

  /** A new assistant message. */
  predicate Summarizes(summary: Message, s: State) {
    summary.Assistant? && summary.id !in s.messageIds
  }

  /** Appends a compaction summary; refused while an approval or a tool outcome is open. */
  method Compact(k: AgentKernel, summary: Message) returns (ok: bool, refused: bool)
    requires k.Valid()
    modifies k
    ensures k.Valid() && k.Steady()
    ensures refused <==> !CanStartRun(old(k.St()))
    ensures ok ==> k.log != old(k.log)
    ensures !refused && !k.PortFailed() && Summarizes(summary, old(k.St())) ==> ok
    ensures refused || (!ok && !k.StoreFailed()) ==> k.log == old(k.log)
    ensures k.log == old(k.log) || k.log == old(k.log) + [SessionCompacted(summary)]
    ensures k.St() == old(k.St()).(messageIds := k.St().messageIds)
  {
    refused := false;
    if !(k.St().pending == map[] && forall c <- k.St().tools :: k.St().tools[c].result.Some?) {
      return false, true;
    }
    HonestQuietly(k.log, [SessionCompacted(summary)], k.world);
    if Summarizes(summary, k.St()) {
      CompactionAccepted(k.St(), summary);
    }
    ok := k.AppendRecords([SessionCompacted(summary)]);
  }

  lemma CompactionAccepted(s: State, summary: Message)
    requires summary.Assistant? && summary.id !in s.messageIds
    ensures ApplyAll(s, [SessionCompacted(summary)]).Some?
  {
    assert [SessionCompacted(summary)][1..] == [];
  }

  lemma OneCompaction(summary: Message)
    ensures Plain([SessionCompacted(summary)]) && Answered([SessionCompacted(summary)]) == []
  {
    assert [SessionCompacted(summary)][..0] == [];
  }

  /** The automatic compaction of the loop; its state check cannot be what fails here. */
  method AutoCompact(k: AgentKernel, summary: Message, ghost prior: seq<Record>, run: nat, size: Block -> nat) returns (ok: bool)
    requires k.Valid() && Head(prior, k.log, run, size)
    modifies k
    ensures k.Valid() && k.Steady() && SameHead(prior, old(k.log), k.log, run, size)
    ensures ok ==> k.log == old(k.log) + [SessionCompacted(summary)]
    ensures !k.PortFailed() && Summarizes(summary, old(k.St())) ==> ok
  {
    var refused;
    ok, refused := Compact(k, summary);
    assert !refused;
    hide Head, SameHead;
    if k.log != old(k.log) {
      OneCompaction(summary);
      HeadGrown(prior, old(k.log), [SessionCompacted(summary)], run, size);
    }
  }

  // ------------------------------------------------------------ one model turn

  datatype TurnEnd = Closed | Paused(approval: nat) | Broken

  /** How a committed turn ends: closed by its checkpoint, paused, or broken with the run still unfinished. */
  ghost predicate Ends(end: TurnEnd, prior: seq<Record>, log0: seq<Record>, log: seq<Record>, run: nat, turn: nat,
                       size: Block -> nat, cap: Limits, bytes: nat) {
    match end
    case Closed =>
      && Head(prior, log, run, size) && (Tainted(log, run) <==> Tainted(log0, run))
      && Turns(prior, log, run) == Turns(prior, log0, run) + {turn}
      && OutputBytes(prior, log, size) == OutputBytes(prior, log0, size) + bytes
    case Paused(approval) =>
      && PausedOn(prior, log, run, size, approval) && (Tainted(log, run) <==> Tainted(log0, run))
      && Alive(prior, log, run, size, cap)
    case Broken => Alive(prior, log, run, size, cap)
  }

  lemma PausedIsOn(prior: seq<Record>, log0: seq<Record>, log: seq<Record>, run: nat, turn: nat, size: Block -> nat,
                   done: seq<Call>, calls: seq<Call>, i: nat, approval: nat)
    requires Base(prior, log0, run, done, calls) && PausedAt(log0, log, calls, i, approval, run, turn)
    ensures PausedOn(prior, log, run, size, approval) && (Tainted(log, run) <==> Tainted(log0, run))
    ensures Trace(prior, log, run, size) && Unfinished(prior, log, run)
    ensures Turns(prior, log, run) == Turns(prior, log0, run) + {turn}
    ensures OutputBytes(prior, log, size) == OutputBytes(prior, log0, size)
  {
    PausedBase(prior, log0, log, run, turn, size, done, calls, i, approval);
    var d, c, rest := done + calls[..i], calls[i], calls[i + 1..];
    assert Unfinished(prior, log, run);
    hide PausedRun, Base, PausedAt, Replay, Trace, PausedOn;
    PausedTrace(prior, log, run, turn, size, d, c, approval, rest);
  }

  lemma PausedEnds(prior: seq<Record>, log0: seq<Record>, log: seq<Record>, run: nat, turn: nat, size: Block -> nat,
                   done: seq<Call>, calls: seq<Call>, i: nat, approval: nat, cap: Limits)
    requires Base(prior, log0, run, done, calls) && Alive(prior, log0, run, size, cap)
    requires |Turns(prior, log0, run) + {turn}| <= cap.maxIterations && PausedAt(log0, log, calls, i, approval, run, turn)
    ensures Ends(Paused(approval), prior, log0, log, run, turn, size, cap, 0)
  {
    PausedIsOn(prior, log0, log, run, turn, size, done, calls, i, approval);
    hide PausedOn, Base, PausedAt, PausedLog, Replay, Turns, Trace, Unfinished, FinishCount;
    UnfinishedCount(prior, log0, log, run);
  }

  lemma UnfinishedCount(prior: seq<Record>, log0: seq<Record>, log: seq<Record>, run: nat)
    requires Unfinished(prior, log0, run) && Unfinished(prior, log, run)
    ensures FinishCount(log0, run) == 0 && FinishCount(log, run) == 0 && prior <= log
  {
  }

  /** A failing turn leaves the run alive: it answered some first calls, or it had already paused. */
  lemma BrokenEnds(prior: seq<Record>, log0: seq<Record>, log: seq<Record>, run: nat, turn: nat, size: Block -> nat,
                   done: seq<Call>, calls: seq<Call>, cap: Limits)
    requires Base(prior, log0, run, done, calls) && Alive(prior, log0, run, size, cap)
    requires |Turns(prior, log0, run) + {turn}| <= cap.maxIterations
    requires Advanced(log0, log, calls) || PausedSomewhere(log0, log, calls, run, turn)
    ensures Ends(Broken, prior, log0, log, run, turn, size, cap, 0)
  {
    hide PausedOn, Base, PausedAt, PausedLog, Replay, Turns, Trace, Unfinished, FinishCount, Advanced;
    if Advanced(log0, log, calls) {
      AdvancedTrace(prior, log0, log, run, size, done, calls);
      UnfinishedCount(prior, log0, log, run);
    } else {
      var i: nat, approval: nat :| PausedAt(log0, log, calls, i, approval, run, turn);
      PausedEnds(prior, log0, log, run, turn, size, done, calls, i, approval, cap);
    }
  }

  /** How policy classifies the calls of a turn, up to the first that asks. */
  function ClassesOf(calls: seq<Call>, w: World): (cs: seq<TT.Class>)
    ensures |cs| <= |calls|
  {
    UptoAsk(Verdicts(calls, w.verdict))
  }

  /** The turn cannot be finished even when every port works: it reflushes, or an allowed call cannot run. */
  ghost predicate Unrunnable(calls: seq<Call>, w: World) {
    Blocked(Invocations(calls, w.kind), ClassesOf(calls, w), w.exec)
  }

  /** How a turn ends when no port fails. */
  ghost predicate EndsByPolicy(end: TurnEnd, calls: seq<Call>, w: World) {
    if Unrunnable(calls, w) then end.Broken?
    else if TT.Paused(ClassesOf(calls, w)) then end.Paused?
    else end.Closed?
  }

  /** Runs the tool calls of a declared turn. */
  method WalkTurn(k: AgentKernel, calls: seq<Call>, run: nat, turn: nat, size: Block -> nat,
                  ghost prior: seq<Record>, ghost done: seq<Call>, ghost cap: Limits) returns (end: TurnEnd)
    requires k.Valid() && Base(prior, k.log, run, done, calls) && Alive(prior, k.log, run, size, cap)
    requires |Turns(prior, k.log, run)| < cap.maxIterations
    modifies k
    ensures k.Valid() && k.Steady()
    ensures end.Closed? ==>
              && Base(prior, k.log, run, done + calls, []) && (Tainted(k.log, run) <==> Tainted(old(k.log), run))
              && Turns(prior, k.log, run) == Turns(prior, old(k.log), run)
              && OutputBytes(prior, k.log, size) == OutputBytes(prior, old(k.log), size)
    ensures !end.Closed? ==> Ends(end, prior, old(k.log), k.log, run, turn, size, cap, 0)
    ensures !k.PortFailed() ==> EndsByPolicy(end, calls, k.world)
    ensures !end.Broken? ==> EndsByPolicy(end, calls, k.world)
  {
    assert Distinct(calls) && AllFresh(k.St(), calls);
    assert |Turns(prior, k.log, run) + {turn}| <= |Turns(prior, k.log, run)| + 1;
    ghost var vs := Invocations(calls, k.world.kind);
    assert CallsOf(vs) == calls;
    hide Base, Alive, Ends, WalkedTo, PausedAt, PausedLog, Grown, Distinct, AllFresh, Turns, Own, Blocked, Advanced, PausedSomewhere;
    hide StopsAtReflush, Invocations, Verdicts, UptoAsk, TT.Paused;
    var outcome := k.ProcessToolTurn(calls, run, turn);
    match outcome {
      case Continue =>
        WalkedBase(prior, old(k.log), k.log, run, size, done, calls);
        return Closed;
      case Waiting(at, approval) =>
        PausedEnds(prior, old(k.log), k.log, run, turn, size, done, calls, at, approval, cap);
        return Paused(approval);
      case Failed =>
        BrokenEnds(prior, old(k.log), k.log, run, turn, size, done, calls, cap);
        return Broken;
    }
  }

  /** The turn's message declares only new calls and its bytes are accounted for. */
  predicate Fits(out: M.Output, s: State, size: Block -> nat) {
    && out.calls == DeclaredCalls(out.content) && Distinct(out.calls)
    && (forall c <- out.calls :: c.id !in s.declared && c.id !in s.tools)
    && ContentBytes(out.content, size) == out.bytes && (out.calls != [] <==> out.stop == M.ToolUse)
  }

  /** There is room for one more turn of `bytes` bytes. */
  ghost predicate Room(prior: seq<Record>, log: seq<Record>, run: nat, size: Block -> nat, cap: Limits, bytes: nat) {
    |Turns(prior, log, run)| < cap.maxIterations && OutputBytes(prior, log, size) + bytes <= cap.maxBytes
  }

  lemma DeclaredAlive(prior: seq<Record>, log: seq<Record>, run: nat, size: Block -> nat, cap: Limits, m: nat, out: M.Output)
    requires Head(prior, log, run, size) && Fits(out, Replay(log).value, size) && m !in Replay(log).value.messageIds
    requires |Turns(prior, log, run)| <= cap.maxIterations && OutputBytes(prior, log, size) + out.bytes <= cap.maxBytes
    ensures Alive(prior, log, run, size, cap) && Alive(prior, log + DeclareRecords(m, out.content), run, size, cap)
    ensures Base(prior, log + DeclareRecords(m, out.content), run, RequestedCalls(Own(prior, log)), out.calls)
    ensures ApplyAll(Replay(log).value, DeclareRecords(m, out.content)).Some?
    ensures Tainted(log + DeclareRecords(m, out.content), run) <==> Tainted(log, run)
    ensures Turns(prior, log + DeclareRecords(m, out.content), run) == Turns(prior, log, run)
    ensures OutputBytes(prior, log + DeclareRecords(m, out.content), size) == OutputBytes(prior, log, size) + out.bytes
  {
    Declared(prior, log, run, size, m, out.content);
    BaseTrace(prior, log, run, size, RequestedCalls(Own(prior, log)), []);
    BaseTrace(prior, log + DeclareRecords(m, out.content), run, size, RequestedCalls(Own(prior, log)), out.calls);
    hide Trace, Replay, Turns, OutputBytes, RequestedCalls, FinishCount;
  }

  lemma ClosedAlive(prior: seq<Record>, log: seq<Record>, run: nat, turn: nat, size: Block -> nat, cap: Limits, done: seq<Call>)
    requires Base(prior, log, run, done, []) && Room(prior, log, run, size, cap, 0)
    ensures Alive(prior, log, run, size, cap)
    ensures
      var log' := log + [TurnCheckpointed(run, turn, ModelRequest)];
      && Alive(prior, log', run, size, cap) && Head(prior, log', run, size) && (Tainted(log', run) <==> Tainted(log, run))
      && Turns(prior, log', run) == Turns(prior, log, run) + {turn}
      && OutputBytes(prior, log', size) == OutputBytes(prior, log, size)
  {
    RunLedger.Closed(prior, log, run, turn, size, done);
    ghost var log' := log + [TurnCheckpointed(run, turn, ModelRequest)];
    BaseTrace(prior, log, run, size, done, []);
    BaseTrace(prior, log', run, size, RequestedCalls(Own(prior, log')), []);
    hide Trace, Replay, Turns, OutputBytes, RequestedCalls, FinishCount, Answered, Segment;
  }

  /** Declares the turn's calls, runs them and closes the turn; a pause turn has no calls. */
  method CommitTurn(k: AgentKernel, out: M.Output, run: nat, turn: nat, size: Block -> nat,
                    ghost prior: seq<Record>, ghost cap: Limits) returns (end: TurnEnd)
    requires k.Valid() && Head(prior, k.log, run, size) && Fits(out, k.St(), size)
    requires Room(prior, k.log, run, size, cap, out.bytes)
    modifies k
    ensures k.Valid() && k.Steady()
    ensures Ends(end, prior, old(k.log), k.log, run, turn, size, cap, out.bytes)
    ensures !end.Broken? || !k.PortFailed() ==> EndsByPolicy(end, out.calls, k.world)
    ensures !end.Broken? ==> Spoken(old(k.log), k.log, out.content)
  {
    hide EndsByPolicy, Spoken;
    hide Head, Base, Alive, PausedOn, Fits, Tainted, Turns, OutputBytes, Replay, RequestedCalls, Own, DeclareRecords;
    var m := FreshId(k.St().messageIds);
    DeclaredAlive(prior, k.log, run, size, cap, m, out);
    ghost var done := RequestedCalls(Own(prior, k.log));
    var ok := CommitDeclarations(k, m, out.content);
    if !ok {
      return Broken;
    }
    end := WalkTurn(k, out.calls, run, turn, size, prior, done, cap);
    SpokenNow(old(k.log), m, out.content, k.log);
    if end.Closed? {
      ClosedAlive(prior, k.log, run, turn, size, cap, done + out.calls);
      ok := CheckpointModelRequest(k, run, turn);
      end := if ok then Closed else Broken;
      SpokenNow(old(k.log), m, out.content, k.log);
    }
  }

  lemma Finished(prior: seq<Record>, log: seq<Record>, run: nat, turn: nat, size: Block -> nat, cap: Limits, m: nat, out: M.Output)
    requires Head(prior, log, run, size) && Fits(out, Replay(log).value, size) && m !in Replay(log).value.messageIds
    requires |Turns(prior, log, run)| <= cap.maxIterations && OutputBytes(prior, log, size) + out.bytes <= cap.maxBytes
    requires out.calls == []
    ensures
      var log' := log + DeclareRecords(m, out.content) + [TurnCheckpointed(run, turn, FinishRun)];
      Stopped(Completed, prior, log', run, size, cap, Tainted(log, run))
  {
    DeclaredAlive(prior, log, run, size, cap, m, out);
    FinishDone(prior, log + DeclareRecords(m, out.content), run, turn, size, RequestedCalls(Own(prior, log)));
    hide Turns, OutputBytes, RequestedCalls, Own, Head, Base, Alive, Done, AllAnswered, Fits, Tainted, Replay;
  }

  lemma FinishDone(prior: seq<Record>, log: seq<Record>, run: nat, turn: nat, size: Block -> nat, done: seq<Call>)
    requires Base(prior, log, run, done, [])
    ensures
      var log' := log + [TurnCheckpointed(run, turn, FinishRun)];
      && Done(log', run, Tainted(log, run)) && AllAnswered(prior, log') && prior <= log' && FinishCount(log', run) == 1
      && Trace(prior, log', run, size)
      && Turns(prior, log', run) == Turns(prior, log, run) + {turn}
      && OutputBytes(prior, log', size) == OutputBytes(prior, log, size)
  {
    hide Replay, Turns, OutputBytes, Segment, RequestedCalls, Answered, CallIds, Own, FinishCount, FinishedLast;
    CheckpointAppended(prior, log, run, turn, FinishRun, size);
    FinishState(log, run, turn);
    assert done + [] == done;
  }

  lemma FinishState(log: seq<Record>, run: nat, turn: nat)
    requires Replay(log).Some?
    ensures
      var log' := log + [TurnCheckpointed(run, turn, FinishRun)];
      && Replay(log').Some? && Replay(log').value.recovery == Replay(log).value.recovery
      && Replay(log').value.pending == Replay(log).value.pending && FinishedLast(log', run)
  {
    assert (log + [TurnCheckpointed(run, turn, FinishRun)])[..|log|] == log;
  }

  /** A message with this content was committed since. */
  ghost predicate Spoken(log0: seq<Record>, log: seq<Record>, content: seq<Block>) {
    exists m: nat, at: nat :: |log0| <= at < |log| && log[at] == MessageCommitted(Assistant(m, content))
  }

  lemma SpokenNow(log0: seq<Record>, m: nat, content: seq<Block>, log: seq<Record>)
    requires log0 + DeclareRecords(m, content) <= log
    ensures Spoken(log0, log, content)
  {
    assert (log0 + DeclareRecords(m, content))[|log0|] == MessageCommitted(Assistant(m, content)) == log[|log0|];
  }

  lemma SpokenBefore(log0: seq<Record>, log1: seq<Record>, log: seq<Record>, content: seq<Block>)
    requires Spoken(log1, log, content) && log0 <= log1
    ensures Spoken(log0, log, content)
  {
  }

  lemma SpokenLast(log0: seq<Record>, log: seq<Record>, run: nat, turn: nat, content: seq<Block>)
    requires EndsSaying(log0, log, run, turn, content)
    ensures Spoken(log0, log, content)
  {
    assert log[|log0|].MessageCommitted?;
  }

  /** The run's last records are this message and the finishing checkpoint. */
  ghost predicate EndsSaying(log0: seq<Record>, log: seq<Record>, run: nat, turn: nat, content: seq<Block>) {
    exists m: nat :: log == log0 + [MessageCommitted(Assistant(m, content)), TurnCheckpointed(run, turn, FinishRun)]
  }

  lemma SaidLast(log: seq<Record>, m: nat, run: nat, turn: nat, content: seq<Block>)
    ensures EndsSaying(log, log + [MessageCommitted(Assistant(m, content)), TurnCheckpointed(run, turn, FinishRun)], run, turn, content)
  {
  }

  /** Both ways in which finishing can come out, and that its records are accepted. */
  lemma FinishFacts(prior: seq<Record>, log: seq<Record>, run: nat, turn: nat, size: Block -> nat, cap: Limits, m: nat, out: M.Output)
    requires Head(prior, log, run, size) && Fits(out, Replay(log).value, size) && m !in Replay(log).value.messageIds
    requires |Turns(prior, log, run)| <= cap.maxIterations && OutputBytes(prior, log, size) + out.bytes <= cap.maxBytes
    requires out.calls == []
    ensures
      var rs := [MessageCommitted(Assistant(m, out.content)), TurnCheckpointed(run, turn, FinishRun)];
      && Replay(log + rs).Some? && Stopped(Error, prior, log, run, size, cap, Tainted(log, run))
      && Stopped(Completed, prior, log + rs, run, size, cap, Tainted(log, run))
      && Stopped(Error, prior, log + rs, run, size, cap, Tainted(log, run))
  {
    Finished(prior, log, run, turn, size, cap, m, out);
    DeclaredAlive(prior, log, run, size, cap, m, out);
    AliveStops(prior, log, run, size, cap, Tainted(log, run));
    var rs := [MessageCommitted(Assistant(m, out.content)), TurnCheckpointed(run, turn, FinishRun)];
    assert log + DeclareRecords(m, out.content) + [rs[1]] == log + rs;
  }

  /** Commits the last message with the finishing checkpoint. */
  method Finish(k: AgentKernel, out: M.Output, run: nat, turn: nat, size: Block -> nat,
                ghost prior: seq<Record>, ghost cap: Limits) returns (outcome: Outcome)
    requires k.Valid() && Head(prior, k.log, run, size) && Fits(out, k.St(), size) && out.calls == []
    requires |Turns(prior, k.log, run)| <= cap.maxIterations
    requires OutputBytes(prior, k.log, size) + out.bytes <= cap.maxBytes
    modifies k
    ensures k.Valid() && k.Steady() && !outcome.WaitingApproval?
    ensures Stopped(outcome, prior, k.log, run, size, cap, Tainted(old(k.log), run))
    ensures outcome.Completed? ==> EndsSaying(old(k.log), k.log, run, turn, out.content)
    ensures !k.PortFailed() ==> outcome.Completed?
  {
    hide Head, Fits, Tainted, Turns, OutputBytes, Replay, Stopped;
    var m := FreshId(k.St().messageIds);
    FinishFacts(prior, k.log, run, turn, size, cap, m, out);
    var rs := [MessageCommitted(Assistant(m, out.content)), TurnCheckpointed(run, turn, FinishRun)];
    SplitReplay(k.log, rs);
    HonestQuietly(k.log, rs, k.world);
    hide EndsSaying;
    assert EndsSaying(k.log, k.log + rs, run, turn, out.content) by { SaidLast(k.log, m, run, turn, out.content); }
    var ok := k.AppendRecords(rs);
    if ok {
      ok := k.Port();
    }
    outcome := if ok then Completed else Error;
  }

  // ------------------------------------------------------------- one loop pass

  /** The loop's invariant: between turns, with live counters that agree with the log and fit the limits. */
  ghost predicate Ready(prior: seq<Record>, log: seq<Record>, run: nat, size: Block -> nat, p: Progress, cap: Limits) {
    && Head(prior, log, run, size) && Tracks(prior, log, run, size, p)
    && p.iterations <= cap.maxIterations && OutputBytes(prior, log, size) <= cap.maxBytes
  }

  lemma ReadyAlive(prior: seq<Record>, log: seq<Record>, run: nat, size: Block -> nat, p: Progress, cap: Limits, tainted: bool)
    requires Ready(prior, log, run, size, p, cap)
    ensures Alive(prior, log, run, size, cap) && Stopped(Error, prior, log, run, size, cap, tainted)
  {
    BaseTrace(prior, log, run, size, RequestedCalls(Own(prior, log)), []);
    AliveStops(prior, log, run, size, cap, tainted);
  }

  lemma ReadySame(prior: seq<Record>, log: seq<Record>, log': seq<Record>, run: nat, size: Block -> nat, p: Progress, cap: Limits)
    requires Ready(prior, log, run, size, p, cap) && SameHead(prior, log, log', run, size)
    ensures Ready(prior, log', run, size, p, cap)
  {
  }

  /** Ends the run on the spot; the caller still returns the error. */
  method FailRun(k: AgentKernel, run: nat, turn: Option<nat>, cancelled: bool, size: Block -> nat,
                 ghost prior: seq<Record>, ghost cap: Limits, ghost tainted: bool)
    requires k.Valid() && Alive(prior, k.log, run, size, cap) && (turn.Some? || cancelled)
    modifies k
    ensures k.Valid() && k.Steady() && Alive(prior, k.log, run, size, cap)
    ensures Stopped(Error, prior, k.log, run, size, cap, tainted)
    ensures
      var ending := if cancelled then RunCancelled(run) else RunInterrupted(run, turn.value);
      && (k.log == old(k.log) || k.log == old(k.log) + [ending])
      && (!k.StoreFailed() && !Tainted(old(k.log), run) ==> k.log == old(k.log) + [ending])
  {
    hide Alive, Stopped;
    var _ := k.RecordRunTerminal(run, turn, cancelled);
    AliveEnded(prior, old(k.log), k.log, run, if turn.Some? then turn.value else 0, cancelled, size, cap);
    AliveStops(prior, k.log, run, size, cap, tainted);
  }

  datatype Preparation = Proceed | Compacted | Refused

  /** What the queue and a clogged queue come to in one step of the kernel alone. */
  lemma QueueLater(q: Q.KernelInputQueue?, log: seq<Record>, log': seq<Record>)
    requires QueueOk(q, log) && log <= log' && Replay(log').Some?
    ensures QueueOk(q, log') && (Clogged(q, log) ==> Clogged(q, log'))
  {
    hide Lossless;
    if q != null {
      LosslessLater(q.batches, log, log');
      if Clogged(q, log) {
        ClogsLater(q.followUps, log, q.followUps, log');
      }
    }
  }

  /** What one application of queued input comes to for the queue. */
  lemma QueueApplied(batches: seq<Q.Snapshot>, queued: Q.Snapshot, batches': seq<Q.Snapshot>, queued': Q.Snapshot,
                     log: seq<Record>, log': seq<Record>, ok: bool, taken: Q.Snapshot, id: nat)
    requires Lossless(batches, log) && log <= log' && Replay(log).Some? && Replay(log').Some? && Q.Within(queued, taken)
    requires ok ==> taken == Q.NOTHING || Q.Committable(Replay(log).value.messageIds, taken.followUps)
    requires ok ==> log' == log + Q.Commits(Q.Messages(taken, id))
    requires ok ==> batches' == batches + (if taken == Q.NOTHING then [] else [taken])
    requires !ok ==> batches' == batches && Q.Within(taken, queued')
    ensures Lossless(batches', log')
    ensures Clogs(queued.followUps, log) ==> !ok && Clogs(queued'.followUps, log')
  {
    hide Lossless, Replay, Q.Commits, Q.Messages;
    if ok && taken != Q.NOTHING {
      LosslessMore(batches, log, taken, id);
    } else {
      assert batches + [] == batches;
      LosslessLater(batches, log, log');
    }
    if Clogs(queued.followUps, log) {
      ClogsLater(queued.followUps, log, taken.followUps, log);
      if !ok {
        ClogsLater(queued.followUps, log, queued'.followUps, log');
      }
    }
  }

  function Last(log: seq<Record>): Record {
    if log == [] then SessionCreated else log[|log| - 1]
  }

  /** Everything before the provider is asked: queued input, request validation and the context window. */
  method Prepare(k: AgentKernel, q: Q.KernelInputQueue?, oracle: Oracle, run: nat, turn: nat, compacted: bool, size: Block -> nat, ghost p: Progress,
                 ghost prior: seq<Record>, ghost cap: Limits) returns (prepared: Preparation)
    requires k.Valid() && Ready(prior, k.log, run, size, p, cap) && QueueOk(q, k.log)
    modifies k, q
    ensures k.Valid() && k.Steady() && QueueOk(q, k.log)
    ensures old(Clogged(q, k.log)) ==> Clogged(q, k.log) && prepared.Refused?
    ensures prepared.Proceed? ==> oracle.known && oracle.request.Sendable?
    ensures q == null && oracle.known && oracle.request.Sendable? ==> prepared.Proceed?
    ensures prepared.Compacted? ==>
              Condenses(oracle.request, compacted) && Last(k.log) == SessionCompacted(oracle.request.summary.value)
    ensures !prepared.Refused? ==> Ready(prior, k.log, run, size, p, cap) && SameHead(prior, old(k.log), k.log, run, size)
    ensures prepared.Refused? ==> Stopped(Error, prior, k.log, run, size, cap, Tainted(old(k.log), run))
  {
    hide Ready, Head, Alive, Stopped, Turns, OutputBytes, Tainted, Replay, Lossless, SameHead, Q.Commits, Q.Messages, Q.Committable;
    ReadyAlive(prior, k.log, run, size, p, cap, Tainted(k.log, run));
    if !oracle.known {
      return Refused;
    }
    ghost var log0 := k.log;
    HeadOf(prior, k.log, run, size, p, cap);
    var ok, taken, id := ApplyQueuedInput(k, q, oracle.inputFits, prior, run, size);
    if q != null {
      QueueApplied(old(q.batches), old(q.Queued()), q.batches, q.Queued(), log0, k.log, ok, taken, id);
    }
    ReadySame(prior, log0, k.log, run, size, p, cap);
    ReadyAlive(prior, k.log, run, size, p, cap, Tainted(log0, run));
    if !ok {
      return Refused;
    }
    SameTaint(prior, log0, k.log, run, size);
    ghost var log1 := k.log;
    prepared := Judge(k, oracle.request, run, turn, compacted, size, p, prior, cap);
    QueueLater(q, log1, k.log);
    if !prepared.Refused? {
      SameTrans(prior, log0, log1, k.log, run, size);
    }
  }

  lemma SameTrans(prior: seq<Record>, a: seq<Record>, b: seq<Record>, c: seq<Record>, run: nat, size: Block -> nat)
    requires SameHead(prior, a, b, run, size) && SameHead(prior, b, c, run, size)
    ensures SameHead(prior, a, c, run, size)
  {
  }

  /** The request is over the context window and its summary is to take its place, which happens once in a run. */
  predicate Condenses(request: Request, compacted: bool) {
    request.Compactable? && request.summary.Some? && !compacted
  }

  /** The request stays over the context window. */
  predicate Overflows(request: Request, compacted: bool) {
    request.TooLarge? || (request.Compactable? && compacted)
  }

  /** The request is validated and its size compared with the context window. */
  method Judge(k: AgentKernel, request: Request, run: nat, turn: nat, compacted: bool, size: Block -> nat, ghost p: Progress,
               ghost prior: seq<Record>, ghost cap: Limits) returns (prepared: Preparation)
    requires k.Valid() && Ready(prior, k.log, run, size, p, cap)
    modifies k
    ensures k.Valid() && k.Steady()
    ensures prepared.Proceed? <==> request.Sendable?
    ensures prepared.Compacted? ==> Condenses(request, compacted) && k.log == old(k.log) + [SessionCompacted(request.summary.value)]
    ensures !k.PortFailed() && Condenses(request, compacted) && Summarizes(request.summary.value, old(k.St())) ==> prepared.Compacted?
    ensures !k.PortFailed() && Overflows(request, compacted) && !Tainted(old(k.log), run) ==>
              k.log == old(k.log) + [RunInterrupted(run, turn)]
    ensures !prepared.Refused? ==> Ready(prior, k.log, run, size, p, cap) && SameHead(prior, old(k.log), k.log, run, size)
    ensures prepared.Refused? ==> Stopped(Error, prior, k.log, run, size, cap, Tainted(old(k.log), run))
  {
    hide Ready, Head, Alive, Stopped, Turns, OutputBytes, Tainted, SameHead;
    prepared := Refused;
    ghost var log0 := k.log;
    ReadyAlive(prior, k.log, run, size, p, cap, Tainted(k.log, run));
    HeadOf(prior, k.log, run, size, p, cap);
    match request {
      case Sendable =>
        HeadSame(prior, k.log, run, size);
        return Proceed;
      case Invalid => return;
      case TooLarge =>
      case Compactable(summary) =>
        if !compacted {
          if summary.None? {
            return;
          }
          var ok := AutoCompact(k, summary.value, prior, run, size);
          ReadySame(prior, log0, k.log, run, size, p, cap);
          ReadyAlive(prior, k.log, run, size, p, cap, Tainted(log0, run));
          return if ok then Compacted else Refused;
        }
    }
    FailRun(k, run, Some(turn), false, size, prior, cap, Tainted(log0, run));
  }

  lemma HeadOf(prior: seq<Record>, log: seq<Record>, run: nat, size: Block -> nat, p: Progress, cap: Limits)
    requires Ready(prior, log, run, size, p, cap)
    ensures Head(prior, log, run, size)
  {
  }

  lemma AccountedFits(out: M.Output, budget: nat, s: State, size: Block -> nat)
    requires M.Accounted(out, budget, s.declared.Keys + s.tools.Keys, size)
    ensures Fits(out, s, size) && out.bytes <= budget
  {
  }

  /** A closed turn is one more iteration, and its bytes are counted. */
  lemma NextReady(prior: seq<Record>, log: seq<Record>, log': seq<Record>, run: nat, turn: nat, size: Block -> nat,
                  p: Progress, bytes: nat, cap: Limits)
    requires Ready(prior, log, run, size, p, cap) && Ends(Closed, prior, log, log', run, turn, size, cap, bytes)
    requires turn !in Turns(prior, log, run) && Room(prior, log, run, size, cap, bytes)
    ensures Ready(prior, log', run, size, Progress(p.iterations + 1, p.bytes + bytes), cap)
  {
    hide Head;
    var t := Turns(prior, log, run);
    assert |t + {turn}| == |t| + 1;
  }

  lemma EndsStops(end: TurnEnd, prior: seq<Record>, log: seq<Record>, log': seq<Record>, run: nat, turn: nat,
                  size: Block -> nat, cap: Limits, bytes: nat)
    requires Ends(end, prior, log, log', run, turn, size, cap, bytes)
    ensures end.Broken? ==> Stopped(Error, prior, log', run, size, cap, Tainted(log, run))
    ensures end.Paused? ==> Stopped(WaitingApproval(end.approval), prior, log', run, size, cap, Tainted(log, run))
  {
    if !end.Closed? {
      AliveStops(prior, log', run, size, cap, Tainted(log, run));
    }
  }

  /** Live counters leave room for exactly what the limits allow. */
  lemma RoomFor(prior: seq<Record>, log: seq<Record>, run: nat, size: Block -> nat, p: Progress, limits: Limits, cap: Limits, bytes: nat)
    requires Ready(prior, log, run, size, p, cap) && p.bytes + bytes <= limits.maxBytes <= cap.maxBytes
    ensures Head(prior, log, run, size) && |Turns(prior, log, run)| == p.iterations <= cap.maxIterations
    ensures OutputBytes(prior, log, size) + bytes <= cap.maxBytes
    ensures p.iterations < limits.maxIterations <= cap.maxIterations ==> Room(prior, log, run, size, cap, bytes)
  {
  }

  /** What one pass does to the loop: another turn, the one compaction, or the end. */
  ghost predicate Passed(step: Step, prior: seq<Record>, log: seq<Record>, log': seq<Record>, run: nat, size: Block -> nat,
                         p: Progress, compacted: bool, limits: Limits, cap: Limits) {
    match step
    case Again(p', compacted') =>
      && Ready(prior, log', run, size, p', cap) && (Tainted(log', run) <==> Tainted(log, run))
      && (|| (p'.iterations == p.iterations + 1 <= limits.maxIterations && compacted' == compacted)
          || (p' == p && !compacted && compacted'))
    case Stop(outcome) => Stopped(outcome, prior, log', run, size, cap, Tainted(log, run))
  }

  /** What the provider's last stream said is what the turn commits, and there is a turn exactly when it said something. */
  ghost predicate Heard(out: Option<M.Output>, oracle: Oracle, calls: nat, budget: nat, size: Block -> nat) {
    && calls > 0
    && (out.Some? ==>
          && M.Tells(out.value.content, oracle.provider(calls - 1).events)
          && M.Last(oracle.provider(calls - 1).events, M.Completed(out.value.stop)))
    && (M.Uniform(size) ==> (out.Some? <==> M.Speaks(oracle.provider(calls - 1), oracle.hosted, budget, size)))
  }

  /** The turn is the run's last: it calls no tool and does not pause. */
  predicate IsFinal(out: M.Output) {
    out.calls == [] && out.stop != M.PauseTurn
  }

  /** What a pass comes to when no port fails. */
  ghost predicate Reacts(step: Step, out: Option<M.Output>, oracle: Oracle, w: World, p: Progress, compacted: bool, limits: Limits) {
    if out.None? then step == Stop(Error)
    else if IsFinal(out.value) then step == Stop(if oracle.presentable then Completed else Error)
    else if p.iterations + 1 > limits.maxIterations || Unrunnable(out.value.calls, w) then step == Stop(Error)
    else if TT.Paused(ClassesOf(out.value.calls, w)) then step.Stop? && step.outcome.WaitingApproval?
    else step == Again(Progress(p.iterations + 1, p.bytes + out.value.bytes), compacted)
  }

  /** A run is only ever finished by its last turn, with that turn's message. */
  ghost predicate FinishedBy(step: Step, out: Option<M.Output>, oracle: Oracle, log: seq<Record>, log': seq<Record>, run: nat, turn: nat) {
    && (step == Stop(Completed) ==>
          && out.Some? && IsFinal(out.value) && out.value.stop != M.ToolUse && oracle.presentable
          && EndsSaying(log, log', run, turn, out.value.content))
    && (out.None? || !IsFinal(out.value) || !oracle.presentable ==> FinishCount(log', run) == 0)
  }

  lemma AliveUnfinished(prior: seq<Record>, log: seq<Record>, run: nat, size: Block -> nat, cap: Limits)
    requires Alive(prior, log, run, size, cap)
    ensures FinishCount(log, run) == 0
  {
  }

  lemma EndsUnfinished(end: TurnEnd, prior: seq<Record>, log: seq<Record>, log': seq<Record>, run: nat, turn: nat,
                       size: Block -> nat, cap: Limits, bytes: nat)
    requires Ends(end, prior, log, log', run, turn, size, cap, bytes)
    ensures FinishCount(log', run) == 0
  {
  }

  /** Asks the provider and commits its turn. */
  method Respond(k: AgentKernel, oracle: Oracle, run: nat, turn: nat, limits: Limits, p: Progress, compacted: bool,
                 size: Block -> nat, ghost prior: seq<Record>, ghost cap: Limits)
    returns (step: Step, calls: nat, ghost out: Option<M.Output>)
    requires k.Valid() && Bounded(limits) && Ready(prior, k.log, run, size, p, cap) && turn !in Turns(prior, k.log, run)
    requires limits.maxIterations <= cap.maxIterations && limits.maxBytes <= cap.maxBytes
    modifies k
    ensures k.Valid() && k.Steady() && calls <= limits.maxAttempts
    ensures Passed(step, prior, old(k.log), k.log, run, size, p, compacted, limits, cap)
    ensures step.Again? ==> step.compacted == compacted
    ensures p.bytes <= limits.maxBytes ==> Heard(out, oracle, calls, limits.maxBytes - p.bytes, size)
    ensures p.bytes > limits.maxBytes ==> calls == 0 && out.None?
    ensures !k.PortFailed() ==> Reacts(step, out, oracle, k.world, p, compacted, limits)
    ensures FinishedBy(step, out, oracle, old(k.log), k.log, run, turn)
    ensures step != Stop(Error) ==> out.Some? && Spoken(old(k.log), k.log, out.value.content)
  {
    hide Spoken;
    hide Ready, Head, Alive, Stopped, Turns, OutputBytes, Tainted, Replay, Ends, EndsByPolicy, FinishCount, Heard;
    step, calls, out := Stop(Error), 0, None;
    ReadyAlive(prior, k.log, run, size, p, cap, Tainted(k.log, run));
    AliveUnfinished(prior, k.log, run, size, cap);
    if p.bytes > limits.maxBytes {
      return;
    }
    var budget := limits.maxBytes - p.bytes;
    var said;
    said, calls := Ask(k, oracle, limits.maxAttempts, budget, size);
    out := said;
    if said.None? {
      var cancelled: bool := *;
      FailRun(k, run, Some(turn), cancelled, size, prior, cap, Tainted(k.log, run));
      AliveUnfinished(prior, k.log, run, size, cap);
      return;
    }
    step := Settle(k, said.value, oracle, run, turn, limits, p, compacted, size, prior, cap);
  }

  /** One streamed turn, over the session's identities. */
  method Ask(k: AgentKernel, oracle: Oracle, maxAttempts: nat, budget: nat, size: Block -> nat)
    returns (out: Option<M.Output>, calls: nat)
    requires k.Valid() && maxAttempts > 0
    ensures calls <= maxAttempts && Heard(out, oracle, calls, budget, size)
    ensures out.Some? ==> Fits(out.value, k.St(), size) && out.value.bytes <= budget
  {
    hide M.Accounted, M.Tells, M.Speaks, M.Uniform, Fits;
    var emitted;
    out, emitted, calls :=
      M.StreamTurn(oracle.provider, oracle.hosted, budget, maxAttempts, k.St().declared.Keys + k.St().tools.Keys, size);
    if out.Some? {
      AccountedFits(out.value, budget, k.St(), size);
    }
  }

  lemma StopFits(out: M.Output, s: State, size: Block -> nat)
    requires Fits(out, s, size)
    ensures out.calls != [] <==> out.stop == M.ToolUse
  {
  }

  /** Commits the turn: the last one finishes the run, any other is checked against the limit, run and closed. */
  method Settle(k: AgentKernel, out: M.Output, oracle: Oracle, run: nat, turn: nat, limits: Limits, p: Progress, compacted: bool,
                size: Block -> nat, ghost prior: seq<Record>, ghost cap: Limits) returns (step: Step)
    requires k.Valid() && Bounded(limits) && Ready(prior, k.log, run, size, p, cap) && turn !in Turns(prior, k.log, run)
    requires limits.maxIterations <= cap.maxIterations && limits.maxBytes <= cap.maxBytes
    requires Fits(out, k.St(), size) && p.bytes + out.bytes <= limits.maxBytes
    modifies k
    ensures k.Valid() && k.Steady()
    ensures Passed(step, prior, old(k.log), k.log, run, size, p, compacted, limits, cap)
    ensures step.Again? ==> step.compacted == compacted
    ensures !k.PortFailed() ==> Reacts(step, Some(out), oracle, k.world, p, compacted, limits)
    ensures FinishedBy(step, Some(out), oracle, old(k.log), k.log, run, turn)
    ensures step != Stop(Error) ==> Spoken(old(k.log), k.log, out.content)
  {
    hide Spoken;
    hide Ready, Head, Alive, Stopped, Turns, OutputBytes, Tainted, Replay, Ends, Fits, Room, FinishCount, EndsSaying;
    hide Unrunnable, ClassesOf, TT.Paused;
    step := Stop(Error);
    StopFits(out, k.St(), size);
    ReadyAlive(prior, k.log, run, size, p, cap, Tainted(k.log, run));
    RoomFor(prior, k.log, run, size, p, limits, cap, out.bytes);
    if out.calls == [] && out.stop != M.PauseTurn {
      step := Conclude(k, out, oracle.presentable, run, turn, size, prior, cap);
      if step == Stop(Completed) {
        SpokenLast(old(k.log), k.log, run, turn, out.content);
      }
    } else if p.iterations + 1 > U32_MAX || p.iterations + 1 > limits.maxIterations {
      FailRun(k, run, Some(turn), false, size, prior, cap, Tainted(k.log, run));
      AliveUnfinished(prior, k.log, run, size, cap);
    } else {
      var end := CommitTurn(k, out, run, turn, size, prior, cap);
      EndsStops(end, prior, old(k.log), k.log, run, turn, size, cap, out.bytes);
      EndsUnfinished(end, prior, old(k.log), k.log, run, turn, size, cap, out.bytes);
      match end {
        case Closed =>
          NextReady(prior, old(k.log), k.log, run, turn, size, p, out.bytes, cap);
          ClosedTaint(prior, old(k.log), k.log, run, turn, size, cap, out.bytes);
          step := Again(Progress(p.iterations + 1, p.bytes + out.bytes), compacted);
        case Paused(approval) => step := Stop(WaitingApproval(approval));
        case Broken =>
      }
    }
  }

  lemma ClosedTaint(prior: seq<Record>, log: seq<Record>, log': seq<Record>, run: nat, turn: nat, size: Block -> nat,
                    cap: Limits, bytes: nat)
    requires Ends(Closed, prior, log, log', run, turn, size, cap, bytes)
    ensures Tainted(log', run) <==> Tainted(log, run)
  {
  }

  /** The last turn: its structured output may be refused, otherwise the run finishes. */
  method Conclude(k: AgentKernel, out: M.Output, presentable: bool, run: nat, turn: nat, size: Block -> nat,
                  ghost prior: seq<Record>, ghost cap: Limits) returns (step: Step)
    requires k.Valid() && Head(prior, k.log, run, size) && Fits(out, k.St(), size) && out.calls == []
    requires |Turns(prior, k.log, run)| <= cap.maxIterations
    requires OutputBytes(prior, k.log, size) + out.bytes <= cap.maxBytes && Alive(prior, k.log, run, size, cap)
    modifies k
    ensures k.Valid() && k.Steady() && step.Stop?
    ensures Stopped(step.outcome, prior, k.log, run, size, cap, Tainted(old(k.log), run))
    ensures !step.outcome.WaitingApproval?
    ensures step.outcome.Completed? ==> presentable && EndsSaying(old(k.log), k.log, run, turn, out.content)
    ensures !presentable ==> FinishCount(k.log, run) == 0
    ensures !k.PortFailed() ==> step == Stop(if presentable then Completed else Error)
  {
    hide Head, Alive, Stopped, Turns, OutputBytes, Fits, FinishCount, EndsSaying;
    if !presentable {
      FailRun(k, run, Some(turn), false, size, prior, cap, Tainted(k.log, run));
      AliveUnfinished(prior, k.log, run, size, cap);
      return Stop(Error);
    }
    var outcome := Finish(k, out, run, turn, size, prior, cap);
    return Stop(outcome);
  }

  // ------------------------------------------------------------------ the loop

  function Left(limits: Limits, p: Progress): nat {
    if p.iterations <= limits.maxIterations then limits.maxIterations - p.iterations else 0
  }

  lemma FreshTurn(prior: seq<Record>, log: seq<Record>, run: nat, size: Block -> nat, p: Progress, cap: Limits)
    requires Ready(prior, log, run, size, p, cap)
    ensures Turns(prior, log, run) == CheckpointedTurns(log, run)
  {
    hide CheckpointedTurns, Replay, RequestedCalls, Answered, Segment, Quiet, FinishCount, OutputBytes;
    assert log == prior + Own(prior, log);
    TurnsAppend(prior, Own(prior, log), run);
  }

  lemma PassedStep(step: Step, prior: seq<Record>, log: seq<Record>, log': seq<Record>, run: nat, size: Block -> nat,
                   p: Progress, compacted: bool, limits: Limits, cap: Limits)
    requires Passed(step, prior, log, log', run, size, p, compacted, limits, cap)
    ensures step.Again? ==>
              && Ready(prior, log', run, size, step.progress, cap) && (Tainted(log', run) <==> Tainted(log, run))
              && if step.compacted == compacted then step.progress.iterations == p.iterations + 1 <= limits.maxIterations
                 else step.progress == p && !compacted
    ensures step.Stop? ==> Stopped(step.outcome, prior, log', run, size, cap, Tainted(log, run))
  {
  }

  lemma SameTaint(prior: seq<Record>, log: seq<Record>, log': seq<Record>, run: nat, size: Block -> nat)
    requires SameHead(prior, log, log', run, size)
    ensures Tainted(log', run) <==> Tainted(log, run)
    ensures Turns(prior, log', run) == Turns(prior, log, run)
  {
  }

  /** Nothing stands between the pass and its provider: not cancelled, model known, request sendable. */
  predicate Open(oracle: Oracle) {
    !oracle.cancelled && oracle.known && oracle.request.Sendable?
  }

  /** One pass of the loop: cancellation, the next turn, everything before the provider, and the model turn. */
  method Pass(k: AgentKernel, q: Q.KernelInputQueue?, oracle: Oracle, run: nat, prepared: Option<nat>, last: nat, limits: Limits,
              p: Progress, compacted: bool, size: Block -> nat, ghost prior: seq<Record>, ghost cap: Limits)
    returns (step: Step, turn: nat, asked: bool, calls: nat, ghost out: Option<M.Output>)
    requires k.Valid() && Bounded(limits) && Ready(prior, k.log, run, size, p, cap) && QueueOk(q, k.log)
    requires prepared.Some? ==> prepared.value !in Turns(prior, k.log, run)
    requires limits.maxIterations <= cap.maxIterations && limits.maxBytes <= cap.maxBytes
    modifies k, q
    ensures k.Valid() && k.Steady() && QueueOk(q, k.log)
    ensures old(Clogged(q, k.log)) ==> Clogged(q, k.log) && step == Stop(Error) && !asked
    ensures Passed(step, prior, old(k.log), k.log, run, size, p, compacted, limits, cap)
    ensures step.Again? ==> (asked <==> step.compacted == compacted)
    ensures calls <= if asked then limits.maxAttempts else 0
    ensures asked ==> Open(oracle)
    ensures q == null && !k.PortFailed() && Open(oracle) ==> asked
    ensures asked && p.bytes <= limits.maxBytes ==> Heard(out, oracle, calls, limits.maxBytes - p.bytes, size)
    ensures asked && !k.PortFailed() ==> Reacts(step, out, oracle, k.world, p, compacted, limits)
    ensures step == Stop(Completed) ==> FinalWord(k.log, run, oracle)
    ensures asked && step != Stop(Error) ==> out.Some? && Spoken(old(k.log), k.log, out.value.content)
    ensures step.Again? && !asked ==> Condenses(oracle.request, compacted) && Last(k.log) == SessionCompacted(oracle.request.summary.value)
    ensures oracle.cancelled ==> step == Stop(Error) && !asked && (k.log == old(k.log) || k.log == old(k.log) + [RunCancelled(run)])
    ensures oracle.cancelled && !k.PortFailed() && !Tainted(old(k.log), run) ==> k.log == old(k.log) + [RunCancelled(run)]
  {
    hide Spoken, Last;
    hide Ready, Stopped, Turns, Tainted, Alive, SameHead, CheckpointedTurns, Replay, QueueOk, Clogged, Heard, Reacts, FinishCount;
    hide EndsSaying, FinalWord, Passed;
    step, turn, asked, calls, out := Stop(Error), last, false, 0, None;
    ghost var log0 := k.log;
    ReadyAlive(prior, k.log, run, size, p, cap, Tainted(k.log, run));
    PassedStop(Error, prior, log0, k.log, run, size, p, compacted, limits, cap);
    if oracle.cancelled {
      FailRun(k, run, None, true, size, prior, cap, Tainted(k.log, run));
      PassedStop(Error, prior, log0, k.log, run, size, p, compacted, limits, cap);
      QueueLater(q, log0, k.log);
      return;
    }
    FreshTurn(prior, k.log, run, size, p, cap);
    if prepared.Some? {
      turn := prepared.value;
    } else {
      var ok := k.Port();
      if !ok {
        return;
      }
      turn := FreshId(CheckpointedTurns(k.log, run));
    }
    var ready := Prepare(k, q, oracle, run, turn, compacted, size, p, prior, cap);
    if ready.Refused? {
      PassedStop(Error, prior, log0, k.log, run, size, p, compacted, limits, cap);
      return;
    }
    SameTaint(prior, log0, k.log, run, size);
    if ready.Compacted? {
      step := Again(p, true);
      PassedCompacted(prior, log0, k.log, run, size, p, limits, cap);
      return;
    }
    ghost var log1 := k.log;
    asked := true;
    label asking:
    step, calls, out := Respond(k, oracle, run, turn, limits, p, compacted, size, prior, cap);
    QueueLater(q, log1, k.log);
    PassedFrom(step, prior, log0, log1, k.log, run, size, p, compacted, limits, cap);
    if step != Stop(Error) {
      SpokenBefore(log0, log1, k.log, out.value.content);
    }
    if step == Stop(Completed) {
      LastWord(log1, k.log, run, turn, out.value, oracle, calls, limits.maxBytes - p.bytes, size);
    }
  }

  lemma PassedStop(outcome: Outcome, prior: seq<Record>, log: seq<Record>, log': seq<Record>, run: nat, size: Block -> nat,
                   p: Progress, compacted: bool, limits: Limits, cap: Limits)
    requires Stopped(outcome, prior, log', run, size, cap, Tainted(log, run))
    ensures Passed(Stop(outcome), prior, log, log', run, size, p, compacted, limits, cap)
  {
  }

  lemma PassedCompacted(prior: seq<Record>, log: seq<Record>, log': seq<Record>, run: nat, size: Block -> nat, p: Progress,
                        limits: Limits, cap: Limits)
    requires Ready(prior, log', run, size, p, cap) && (Tainted(log', run) <==> Tainted(log, run))
    ensures Passed(Again(p, true), prior, log, log', run, size, p, false, limits, cap)
  {
  }

  lemma PassedFrom(step: Step, prior: seq<Record>, log: seq<Record>, log1: seq<Record>, log': seq<Record>, run: nat,
                   size: Block -> nat, p: Progress, compacted: bool, limits: Limits, cap: Limits)
    requires Passed(step, prior, log1, log', run, size, p, compacted, limits, cap) && (Tainted(log1, run) <==> Tainted(log, run))
    ensures Passed(step, prior, log, log', run, size, p, compacted, limits, cap)
  {
  }

  /** The content is what some stream of the provider said, up to a stop that is neither a pause nor a tool call. */
  ghost predicate SaidBy(content: seq<Block>, oracle: Oracle) {
    exists a: nat :: SaidIn(content, oracle.provider(a).events)
  }

  predicate SaidIn(content: seq<Block>, events: seq<M.Event>) {
    M.Tells(content, events) && M.Last(events, M.Completed(M.OtherStop))
  }

  /** The log ends with a message that the provider said as its last word, and the finishing checkpoint. */
  ghost predicate FinalWord(log: seq<Record>, run: nat, oracle: Oracle) {
    exists log0, turn, content :: EndsSaying(log0, log, run, turn, content) && SaidBy(content, oracle)
  }

  lemma LastWord(log0: seq<Record>, log: seq<Record>, run: nat, turn: nat, out: M.Output, oracle: Oracle, calls: nat,
                 budget: int, size: Block -> nat)
    requires budget >= 0 && Heard(Some(out), oracle, calls, budget, size) && IsFinal(out) && out.stop != M.ToolUse
    requires EndsSaying(log0, log, run, turn, out.content)
    ensures FinalWord(log, run, oracle)
  {
    hide M.Tells, EndsSaying;
    assert SaidIn(out.content, oracle.provider(calls - 1).events);
  }

  /**
   The loop of a run.  It ends for every oracle: a repeated pass uses one of the
   remaining tool iterations or the single automatic compaction, and every turn
   makes at most `maxAttempts` provider calls.
  */
  method LoopInner(k: AgentKernel, q: Q.KernelInputQueue?, oracles: nat -> Oracle, run: nat, first: Option<nat>, terminalTurn: nat,
                   limits: Limits, start: Progress, size: Block -> nat, ghost prior: seq<Record>, ghost cap: Limits)
    returns (outcome: Outcome, turn: nat, turns: nat, calls: nat)
    requires k.Valid() && Bounded(limits) && Ready(prior, k.log, run, size, start, cap) && QueueOk(q, k.log)
    requires first.Some? ==> first.value !in Turns(prior, k.log, run)
    requires limits.maxIterations <= cap.maxIterations && limits.maxBytes <= cap.maxBytes
    modifies k, q
    ensures k.Valid() && k.Steady() && QueueOk(q, k.log)
    ensures old(Clogged(q, k.log)) ==> Clogged(q, k.log) && outcome.Error? && turns == 0
    ensures Stopped(outcome, prior, k.log, run, size, cap, Tainted(old(k.log), run))
    ensures outcome.Completed? ==> exists i: nat :: FinalWord(k.log, run, oracles(i))
    ensures turns <= Left(limits, start) + 1 && calls <= turns * limits.maxAttempts
  {
    hide Ready, Stopped, Turns, Tainted, Replay, QueueOk, Clogged, Passed, Reacts, Heard, FinalWord, Open;
    var p, compacted, prepared, passes := start, false, first, 0;
    turn, turns, calls := terminalTurn, 0, 0;
    ghost var tainted, clogged := Tainted(k.log, run), Clogged(q, k.log);
    while true
      invariant k.Valid() && k.Steady() && Ready(prior, k.log, run, size, p, cap) && (Tainted(k.log, run) <==> tainted)
      invariant QueueOk(q, k.log) && (clogged ==> Clogged(q, k.log) && turns == 0)
      invariant prepared.Some? ==> prepared.value !in Turns(prior, k.log, run)
      invariant turns + Left(limits, p) <= Left(limits, start) && calls <= turns * limits.maxAttempts
      decreases Left(limits, p), !compacted
    {
      ghost var log0 := k.log;
      var step, turn', asked, more, _ := Pass(k, q, oracles(passes), run, prepared, turn, limits, p, compacted, size, prior, cap);
      passes := passes + 1;
      PassedStep(step, prior, log0, k.log, run, size, p, compacted, limits, cap);
      OneMoreTurn(turns, calls, if asked then 1 else 0, more, limits.maxAttempts);
      turn, prepared, turns, calls := turn', None, turns + (if asked then 1 else 0), calls + more;
      match step {
        case Stop(o) => return o, turn, turns, calls;
        case Again(p', c') => p, compacted := p', c';
      }
    }
  }

  lemma OneMoreTurn(turns: nat, calls: nat, asked: nat, more: nat, attempts: nat)
    requires calls <= turns * attempts && asked <= 1 && more <= asked * attempts
    ensures calls + more <= (turns + asked) * attempts
  {
  }

  /**
   A run to its end.  A failed run has exactly one ending, whichever step failed,
   unless the ending's own load or transaction fails; then it has none.  A completed
   run has exactly one unless it had been interrupted before.
  */
  method Loop(k: AgentKernel, q: Q.KernelInputQueue?, oracles: nat -> Oracle, run: nat, first: Option<nat>, terminalTurn: nat,
              limits: Limits, start: Progress, size: Block -> nat, ghost prior: seq<Record>, ghost cap: Limits)
    returns (outcome: Outcome, turns: nat, calls: nat)
    requires k.Valid() && Bounded(limits) && Ready(prior, k.log, run, size, start, cap)
    requires first.Some? ==> first.value !in Turns(prior, k.log, run)
    requires limits.maxIterations <= cap.maxIterations && limits.maxBytes <= cap.maxBytes && QueueOk(q, k.log)
    modifies k, q
    ensures k.Valid() && k.Steady() && QueueOk(q, k.log)
    ensures old(Clogged(q, k.log)) ==> Clogged(q, k.log) && outcome.Error? && turns == 0
    ensures Settles(outcome, prior, k.log, run, size, cap, k.unended, Tainted(old(k.log), run))
    ensures outcome.Error? && k.unended ==> k.StoreFailed()
    ensures outcome.Completed? ==> exists i: nat :: FinalWord(k.log, run, oracles(i))
    ensures turns <= Left(limits, start) + 1 && calls <= turns * limits.maxAttempts
  {
    hide Ready, Stopped, Settles, Turns, Tainted, QueueOk, Clogged, Replay, FinalWord;
    var turn;
    outcome, turn, turns, calls := LoopInner(k, q, oracles, run, first, terminalTurn, limits, start, size, prior, cap);
    StoppedSettles(outcome, prior, k.log, run, size, cap, k.unended, Tainted(old(k.log), run));
    if outcome.Error? {
      ghost var log0 := k.log;
      var cancelled: bool := *;
      var _ := k.EnsureRunTerminal(run, turn, cancelled);
      EnsuredSettles(prior, log0, k.log, run, turn, cancelled, size, cap, k.unended, Tainted(old(k.log), run));
      QueueLater(q, log0, k.log);
    }
  }

  /** The end of a run as the session sees it; `unended` says that the store kept a failed run from being ended. */
  ghost predicate Settles(outcome: Outcome, prior: seq<Record>, log: seq<Record>, run: nat, size: Block -> nat,
                          cap: Limits, unended: bool, tainted: bool) {
    && Within(prior, log, run, size, cap) && Trace(prior, log, run, size)
    && match outcome
       case Completed =>
         Endings(log, run) == 1 + One(tainted) && (Tainted(log, run) <==> tainted) && AllAnswered(prior, log)
       case WaitingApproval(approval) => PausedOn(prior, log, run, size, approval) && (Tainted(log, run) <==> tainted)
       case Error =>
         if unended then Endings(log, run) == 0
         else
           && Endings(log, run) == 1 + One(tainted && FinishCount(log, run) == 1)
           && AlreadyEnded(Replay(log).value, run)
  }

  lemma StoppedSettles(outcome: Outcome, prior: seq<Record>, log: seq<Record>, run: nat, size: Block -> nat, cap: Limits,
                       unended: bool, tainted: bool)
    requires Stopped(outcome, prior, log, run, size, cap, tainted)
    ensures !outcome.Error? ==> Settles(outcome, prior, log, run, size, cap, unended, tainted)
  {
    if outcome.Completed? {
      DoneEndings(log, run, tainted);
    }
  }

  lemma EndedWithin(prior: seq<Record>, log: seq<Record>, run: nat, turn: nat, cancelled: bool, size: Block -> nat, cap: Limits)
    requires Within(prior, log, run, size, cap)
    ensures Within(prior, log + [EndingRecord(run, turn, cancelled)], run, size, cap)
    ensures FinishCount(log + [EndingRecord(run, turn, cancelled)], run) == FinishCount(log, run)
  {
    hide CheckpointedTurns, AssistantBytes, Segment, RequestedCalls, Answered, FinishCount, Plain, Own;
    var rs := [EndingRecord(run, turn, cancelled)];
    OwnAppend(prior, log, rs);
    EndingIsPlain(run, turn, cancelled);
    PlainCountsNothing(Own(prior, log), rs, run, size);
    FinishesAppend(log, rs, run);
    NoFinishes(rs, run);
  }

  lemma EnsuredSettles(prior: seq<Record>, log: seq<Record>, log': seq<Record>, run: nat, turn: nat, cancelled: bool,
                       size: Block -> nat, cap: Limits, unended: bool, tainted: bool)
    requires Stopped(Error, prior, log, run, size, cap, tainted) && Replay(log').Some?
    requires log' == log || log' == log + [EndingRecord(run, turn, cancelled)]
    requires !unended ==> log' == Ended(log, run, turn, cancelled)
    requires unended ==> log' == log && !AlreadyEnded(Replay(log).value, run)
    ensures Settles(Error, prior, log', run, size, cap, unended, tainted)
  {
    hide Trace, Within, Replay;
    if log' != log {
      EndedWithin(prior, log, run, turn, cancelled, size, cap);
      EndedTrace(prior, log, run, size, turn, cancelled);
    }
    if unended {
      NoEnding(log, run, tainted);
    } else {
      HaltedEndings(log, run, turn, cancelled, tainted);
      EndedAccepted(log, run, turn, cancelled);
    }
  }

  lemma NoEnding(log: seq<Record>, run: nat, tainted: bool)
    requires Halted(log, run, tainted) && !AlreadyEnded(Replay(log).value, run)
    ensures Endings(log, run) == 0
  {
    RecoveryMatchesLog(log, run);
    EndingsSplit(log, run);
  }

  // ----------------------------------------------------------------- a new run

  /** Runs a log mentions. */
  function RunIds(log: seq<Record>): set<nat> {
    if log == [] then {}
    else
      var last := log[|log| - 1];
      RunIds(log[..|log| - 1]) +
      (if last.TurnCheckpointed? || last.RunInterrupted? || last.RunCancelled? then {last.run} else {})
  }

  lemma {:induction false} UnknownRun(log: seq<Record>, run: nat)
    requires run !in RunIds(log)
    ensures NoCheckpointOf(log, run) && FinishCount(log, run) == 0 && AbnormalEndings(log, run) == 0
  {
    if log != [] {
      UnknownRun(log[..|log| - 1], run);
      assert log == log[..|log| - 1] + [log[|log| - 1]];
    }
  }

  lemma NewRunReady(log: seq<Record>, run: nat, size: Block -> nat, cap: Limits)
    requires Replay(log).Some? && CanStartRun(Replay(log).value) && run !in RunIds(log)
    ensures Ready(log, log, run, size, Progress(0, 0), cap) && !Tainted(log, run) && Turns(log, log, run) == {}
  {
    UnknownRun(log, run);
    RecoveryMatchesLog(log, run);
    assert Own(log, log) == [];
  }

  /** A new run: refused without a trace while an approval or a tool outcome is open. */
  method Run(k: AgentKernel, q: Q.KernelInputQueue?, oracles: nat -> Oracle, limits: Limits, size: Block -> nat)
    returns (outcome: Outcome, run: nat, turns: nat, calls: nat)
    requires k.Valid() && Bounded(limits) && QueueOk(q, k.log)
    modifies k, q
    ensures k.Valid() && k.Steady() && QueueOk(q, k.log) && run !in RunIds(old(k.log))
    ensures old(Clogged(q, k.log)) ==> Clogged(q, k.log) && outcome.Error? && turns == 0
    ensures !CanStartRun(old(k.St())) ==> outcome.Error? && k.log == old(k.log)
    ensures || (outcome.Error? && k.log == old(k.log))
            || Settles(outcome, old(k.log), k.log, run, size, limits, k.unended, false)
    ensures outcome.Error? && k.log != old(k.log) && k.unended ==> k.StoreFailed()
    ensures outcome.Completed? ==> exists i: nat :: FinalWord(k.log, run, oracles(i))
    ensures turns <= limits.maxIterations + 1 && calls <= turns * limits.maxAttempts
  {
    hide Ready, Settles, Tainted, Turns, Replay, RunIds, CheckpointedTurns, QueueOk, Clogged, FinalWord;
    outcome, turns, calls := Error, 0, 0;
    run := FreshId(RunIds(k.log));
    if !(k.St().pending == map[] && forall c <- k.St().tools :: k.St().tools[c].result.Some?) {
      return;
    }
    if * {
      return;
    }
    var ok := k.Port();
    if !ok {
      return;
    }
    NewRunReady(k.log, run, size, limits);
    var turn := FreshId(CheckpointedTurns(k.log, run));
    outcome, turns, calls := Loop(k, q, oracles, run, Some(turn), turn, limits, Progress(0, 0), size, k.log, limits);
  }
}

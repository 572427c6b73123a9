/**
 What the log says about one run while the kernel works on it.  `prior` is the log
 before the run began, `Own` everything appended since.  `Base` describes the log
 between tool calls of a turn, `PausedRun` the log while an approval is open.
*/
module RunLedger {
  import opened Basics
  import opened SessionLog
  import opened ToolRecords
  import opened RunCounters
  import opened RunEndings
  import opened Kernel

  function Own(prior: seq<Record>, log: seq<Record>): seq<Record> {
    if |prior| <= |log| then log[|prior|..] else []
  }

  /** Turns of the run that have a checkpoint. */
  function Turns(prior: seq<Record>, log: seq<Record>, run: nat): set<nat> {
    CheckpointedTurns(Own(prior, log), run)
  }

  /** Assistant bytes the run committed. */
  function OutputBytes(prior: seq<Record>, log: seq<Record>, size: Block -> nat): nat {
    AssistantBytes(Own(prior, log), size)
  }

  /** No open approval, `calls` untouched, and every other call answered. */
  predicate Quiet(s: State, calls: seq<Call>) {
    && s.pending == map[]
    && AllFresh(s, calls)
    && forall id <- s.tools :: id in Ids(calls) || s.tools[id].result.Some?
  }

  /** The run appended after `prior` and has not finished. */
  predicate Unfinished(prior: seq<Record>, log: seq<Record>, run: nat) {
    && prior <= log && NoCheckpointOf(prior, run) && OnlyCheckpointsOf(Own(prior, log), run)
    && FinishCount(log, run) == 0
  }

  /**
   The run requested `done + calls`; `done` is answered, each call once and in
   source order, and nothing has happened to `calls` yet.
  */
  ghost predicate Base(prior: seq<Record>, log: seq<Record>, run: nat, done: seq<Call>, calls: seq<Call>) {
    && Unfinished(prior, log, run) && Replay(log).Some?
    && RequestedCalls(Own(prior, log)) == done + calls
    && Answered(Own(prior, log)) == CallIds(done)
    && Distinct(calls)
    && Quiet(Replay(log).value, calls)
  }

  /** Between turns: every requested call is answered and every assistant message closed by a checkpoint. */
  ghost predicate Head(prior: seq<Record>, log: seq<Record>, run: nat, size: Block -> nat) {
    && Base(prior, log, run, RequestedCalls(Own(prior, log)), [])
    && Segment(Own(prior, log), size) == 0
  }

  /** The state while call `c` waits on `approval` and `rest` is untouched. */
  predicate WaitingState(s: State, run: nat, turn: nat, c: Call, approval: nat, rest: seq<Call>) {
    && s.pending.Keys == {approval}
    && WaitsOn(s, c, approval)
    && AllFresh(s, rest)
    && s.checkpoint == Some(Checkpoint(run, turn, WaitForApproval))
    && forall id <- s.tools :: id == c.id || id in Ids(rest) || s.tools[id].result.Some?
  }

  /** The run waits on `approval` for call `c`; `done` is answered in source order and `rest` untouched. */
  ghost predicate PausedRun(prior: seq<Record>, log: seq<Record>, run: nat, turn: nat, size: Block -> nat,
                            done: seq<Call>, c: Call, approval: nat, rest: seq<Call>) {
    && Unfinished(prior, log, run) && Replay(log).Some?
    && RequestedCalls(Own(prior, log)) == done + ([c] + rest)
    && Answered(Own(prior, log)) == CallIds(done)
    && Distinct([c] + rest)
    && WaitingState(Replay(log).value, run, turn, c, approval, rest)
    && Segment(Own(prior, log), size) == 0
    && turn in Turns(prior, log, run)
  }

  lemma OwnAppend(prior: seq<Record>, log: seq<Record>, rs: seq<Record>)
    requires prior <= log
    ensures prior <= log + rs && Own(prior, log + rs) == Own(prior, log) + rs
  {
  }

  lemma {:induction false} FinishesAppend(log: seq<Record>, rs: seq<Record>, run: nat)
    ensures FinishCount(log + rs, run) == FinishCount(log, run) + FinishCount(rs, run)
    decreases |rs|
  {
    if rs == [] {
      assert log + rs == log;
    } else {
      var front := rs[..|rs| - 1];
      assert (log + rs)[..|log + rs| - 1] == log + front;
      FinishesAppend(log, front, run);
    }
  }

  lemma {:induction false} NoFinishes(rs: seq<Record>, run: nat)
    requires forall r <- rs :: !FinishesRun(r, run)
    ensures FinishCount(rs, run) == 0
  {
    if rs != [] {
      NoFinishes(rs[..|rs| - 1], run);
    }
  }

  /** Plain records leave the run unfinished and change none of its counters. */
  lemma PlainAppended(prior: seq<Record>, log: seq<Record>, rs: seq<Record>, run: nat, size: Block -> nat)
    requires Unfinished(prior, log, run) && Plain(rs)
    ensures Unfinished(prior, log + rs, run)
    ensures SameCounters(Own(prior, log), Own(prior, log + rs), run, size)
    ensures Answered(Own(prior, log + rs)) == Answered(Own(prior, log)) + Answered(rs)
  {
    OwnAppend(prior, log, rs);
    PlainCountsNothing(Own(prior, log), rs, run, size);
    AnsweredAppend(Own(prior, log), rs);
    FinishesAppend(log, rs, run);
    NoFinishes(rs, run);
  }

  lemma GrownSplit(log: seq<Record>, log': seq<Record>) returns (rs: seq<Record>)
    requires Grown(log, log')
    ensures log' == log + rs && Plain(rs)
  {
    rs := log'[|log|..];
  }

  lemma CheckpointAppended(prior: seq<Record>, log: seq<Record>, run: nat, turn: nat, next: NextAction, size: Block -> nat)
    requires prior <= log && NoCheckpointOf(prior, run) && OnlyCheckpointsOf(Own(prior, log), run)
    ensures
      var log' := log + [TurnCheckpointed(run, turn, next)];
      && prior <= log' && OnlyCheckpointsOf(Own(prior, log'), run)
      && FinishCount(log', run) == FinishCount(log, run) + One(next.FinishRun?)
      && Turns(prior, log', run) == Turns(prior, log, run) + {turn}
      && OutputBytes(prior, log', size) == OutputBytes(prior, log, size)
      && Segment(Own(prior, log'), size) == 0
      && RequestedCalls(Own(prior, log')) == RequestedCalls(Own(prior, log))
      && Answered(Own(prior, log')) == Answered(Own(prior, log))
  {
    var r := TurnCheckpointed(run, turn, next);
    OwnAppend(prior, log, [r]);
    assert (Own(prior, log) + [r])[..|Own(prior, log)|] == Own(prior, log);
    assert (log + [r])[..|log|] == log;
  }

  // ----------------------------------------------------------- declarations

  function DeclareRecords(m: nat, content: seq<Block>): seq<Record> {
    [MessageCommitted(Assistant(m, content))] + RequestRecords(DeclaredCalls(content))
  }

  /** Records that close no turn and answer no call. */
  predicate Opening(rs: seq<Record>) {
    forall r <- rs :: !r.TurnCheckpointed? && !(r.MessageCommitted? && r.message.ToolResult?)
  }

  lemma {:induction false} OpeningCounts(log: seq<Record>, rs: seq<Record>, run: nat, size: Block -> nat)
    requires Opening(rs)
    ensures RequestedCalls(log + rs) == RequestedCalls(log) + RequestedCalls(rs)
    ensures CheckpointedTurns(log + rs, run) == CheckpointedTurns(log, run)
    ensures AssistantBytes(log + rs, size) == AssistantBytes(log, size) + AssistantBytes(rs, size)
    ensures Answered(log + rs) == Answered(log)
    decreases |rs|
  {
    if rs == [] {
      assert log + rs == log;
    } else {
      var front := rs[..|rs| - 1];
      assert (log + rs)[..|log + rs| - 1] == log + front;
      OpeningCounts(log, front, run, size);
      assert rs[|rs| - 1] in rs;
    }
  }

  lemma {:induction false} RequestsRecorded(calls: seq<Call>, size: Block -> nat)
    ensures Opening(RequestRecords(calls))
    ensures RequestedCalls(RequestRecords(calls)) == calls && AssistantBytes(RequestRecords(calls), size) == 0
    decreases |calls|
  {
    if calls != [] {
      var head := [ToolCallRequested(calls[0])];
      RequestsRecorded(calls[1..], size);
      OpeningCounts(head, RequestRecords(calls[1..]), 0, size);
      assert head[..0] == [];
    }
  }

  lemma DeclareRecordsCount(m: nat, content: seq<Block>, size: Block -> nat)
    ensures Opening(DeclareRecords(m, content))
    ensures RequestedCalls(DeclareRecords(m, content)) == DeclaredCalls(content)
    ensures AssistantBytes(DeclareRecords(m, content), size) == ContentBytes(content, size)
  {
    var head := [MessageCommitted(Assistant(m, content))];
    RequestsRecorded(DeclaredCalls(content), size);
    OpeningCounts(head, RequestRecords(DeclaredCalls(content)), 0, size);
    assert head[..0] == [];
  }

  /** New declarations are accepted, and the calls become the turn's untouched calls. */
  lemma Declared(prior: seq<Record>, log: seq<Record>, run: nat, size: Block -> nat, m: nat, content: seq<Block>)
    requires Head(prior, log, run, size) && Distinct(DeclaredCalls(content))
    requires m !in Replay(log).value.messageIds
    requires forall c <- DeclaredCalls(content) :: c.id !in Replay(log).value.declared && c.id !in Replay(log).value.tools
    ensures ApplyAll(Replay(log).value, DeclareRecords(m, content)).Some?
    ensures Base(prior, log + DeclareRecords(m, content), run, RequestedCalls(Own(prior, log)), DeclaredCalls(content))
    ensures Replay(log + DeclareRecords(m, content)).value.recovery == Replay(log).value.recovery
    ensures Turns(prior, log + DeclareRecords(m, content), run) == Turns(prior, log, run)
    ensures OutputBytes(prior, log + DeclareRecords(m, content), size) == OutputBytes(prior, log, size) + ContentBytes(content, size)
  {
    var s, calls := Replay(log).value, DeclaredCalls(content);
    var rs := DeclareRecords(m, content);
    DeclaredState(s, m, content);
    ReplayAppend(log, rs);
    DeclaredCounts(prior, log, run, size, m, content);
  }

  lemma DeclaredState(s: State, m: nat, content: seq<Block>)
    requires Quiet(s, []) && Distinct(DeclaredCalls(content)) && m !in s.messageIds
    requires forall c <- DeclaredCalls(content) :: c.id !in s.declared && c.id !in s.tools
    ensures ApplyAll(s, DeclareRecords(m, content)).Some?
    ensures Quiet(ApplyAll(s, DeclareRecords(m, content)).value, DeclaredCalls(content))
    ensures ApplyAll(s, DeclareRecords(m, content)).value.recovery == s.recovery
  {
    var calls, rs := DeclaredCalls(content), DeclareRecords(m, content);
    DeclareAccepts(s.declared, s.tools, calls);
    var s1 := Apply(s, rs[0]).value;
    assert rs[1..] == RequestRecords(calls);
    RequestsAccepted(s1, calls);
  }

  lemma DeclaredCounts(prior: seq<Record>, log: seq<Record>, run: nat, size: Block -> nat, m: nat, content: seq<Block>)
    requires Unfinished(prior, log, run)
    ensures
      var log' := log + DeclareRecords(m, content);
      && Unfinished(prior, log', run)
      && RequestedCalls(Own(prior, log')) == RequestedCalls(Own(prior, log)) + DeclaredCalls(content)
      && Answered(Own(prior, log')) == Answered(Own(prior, log))
      && Turns(prior, log', run) == Turns(prior, log, run)
      && OutputBytes(prior, log', size) == OutputBytes(prior, log, size) + ContentBytes(content, size)
  {
    var rs := DeclareRecords(m, content);
    DeclareRecordsCount(m, content, size);
    OwnAppend(prior, log, rs);
    OpeningCounts(Own(prior, log), rs, run, size);
    FinishesAppend(log, rs, run);
    NoFinishes(rs, run);
  }

  // ------------------------------------------------------- the end of a turn

  lemma AnsweredSince(log0: seq<Record>, rs: seq<Record>, ids: seq<nat>)
    requires Answered(log0 + rs) == Answered(log0) + ids
    ensures Answered(rs) == ids
  {
    AnsweredAppend(log0, rs);
    var a, b := Answered(rs), Answered(log0);
    assert (b + a)[|b|..] == a && (b + ids)[|b|..] == ids;
  }

  lemma WalkedState(s0: State, s: State, calls: seq<Call>)
    requires Quiet(s0, calls) && SettledUpto(s0, s, calls, |calls|)
    ensures Quiet(s, [])
  {
    assert calls[..|calls|] == calls;
    forall id <- s.tools ensures s.tools[id].result.Some? {
      if id in Ids(calls) {
        var c :| c in calls && c.id == id;
        assert Settled(s, c.id);
      } else {
        assert s.tools[id] == s0.tools[id];
      }
    }
  }

  /** A walked turn leaves every call of the run answered in source order. */
  lemma WalkedBase(prior: seq<Record>, log0: seq<Record>, log: seq<Record>, run: nat, size: Block -> nat,
                   done: seq<Call>, calls: seq<Call>)
    requires Base(prior, log0, run, done, calls) && WalkedTo(log0, log, calls, |calls|)
    ensures Base(prior, log, run, done + calls, []) && Replay(log).value.recovery == Replay(log0).value.recovery
    ensures Turns(prior, log, run) == Turns(prior, log0, run) && OutputBytes(prior, log, size) == OutputBytes(prior, log0, size)
  {
    var rs := GrownSplit(log0, log);
    PlainAppended(prior, log0, rs, run, size);
    assert calls[..|calls|] == calls;
    AnsweredSince(log0, rs, CallIds(calls));
    CallIdsAppend(done, calls);
    WalkedState(Replay(log0).value, Replay(log).value, calls);
    assert done + calls + [] == done + calls;
  }

  /** The checkpoint after a turn restores the state between turns and counts the turn. */
  lemma Closed(prior: seq<Record>, log: seq<Record>, run: nat, turn: nat, size: Block -> nat, done: seq<Call>)
    requires Base(prior, log, run, done, [])
    ensures
      var log' := log + [TurnCheckpointed(run, turn, ModelRequest)];
      && Head(prior, log', run, size) && Replay(log').value.recovery == Replay(log).value.recovery
      && Turns(prior, log', run) == Turns(prior, log, run) + {turn}
      && OutputBytes(prior, log', size) == OutputBytes(prior, log, size)
  {
    var r := TurnCheckpointed(run, turn, ModelRequest);
    CheckpointAppended(prior, log, run, turn, ModelRequest, size);
    assert (log + [r])[..|log|] == log;
    assert done + [] == done;
  }

  lemma PausedFacts(s0: State, s: State, calls: seq<Call>, k: nat, approval: nat, run: nat, turn: nat)
    requires Quiet(s0, calls) && TurnPaused(s0, s, calls, k, approval, run, turn)
    ensures WaitingState(s, run, turn, calls[k], approval, calls[k + 1..])
  {
    forall id <- s.tools
      ensures id == calls[k].id || id in Ids(calls[k + 1..]) || s.tools[id].result.Some?
    {
      if id in Ids(calls) {
        var j :| 0 <= j < |calls| && calls[j].id == id;
        if j < k {
          SettledAt(s, calls, k, j);
        } else if j > k {
          assert calls[j] == calls[k + 1..][j - k - 1];
        }
      } else {
        assert s.tools[id] == s0.tools[id];
      }
    }
  }

  lemma PausedCounts(prior: seq<Record>, log0: seq<Record>, log: seq<Record>, run: nat, turn: nat, size: Block -> nat,
                     ids: seq<nat>)
    requires Unfinished(prior, log0, run) && PausedLog(log0, log, run, turn)
    requires Answered(log) == Answered(log0) + ids
    ensures Unfinished(prior, log, run)
    ensures RequestedCalls(Own(prior, log)) == RequestedCalls(Own(prior, log0))
    ensures Answered(Own(prior, log)) == Answered(Own(prior, log0)) + ids
    ensures Turns(prior, log, run) == Turns(prior, log0, run) + {turn}
    ensures OutputBytes(prior, log, size) == OutputBytes(prior, log0, size)
    ensures Segment(Own(prior, log), size) == 0
  {
    var front := log[..|log| - 1];
    var rs := GrownSplit(log0, front);
    assert log == front + [TurnCheckpointed(run, turn, WaitForApproval)];
    PlainAppended(prior, log0, rs, run, size);
    CheckpointAppended(prior, front, run, turn, WaitForApproval, size);
    assert Answered(log) == Answered(front);
    AnsweredSince(log0, rs, ids);
  }

  lemma SplitAt(done: seq<Call>, calls: seq<Call>, k: nat)
    requires k < |calls| && Distinct(calls)
    ensures done + calls == done + calls[..k] + ([calls[k]] + calls[k + 1..])
    ensures Distinct([calls[k]] + calls[k + 1..])
    ensures CallIds(done + calls[..k]) == CallIds(done) + CallIds(calls[..k])
  {
    hide CallIds;
    CallIdsAppend(done, calls[..k]);
    assert [calls[k]] + calls[k + 1..] == calls[k..] && calls == calls[..k] + calls[k..];
  }

  /** A paused turn leaves the calls before the asking one answered and the later ones untouched. */
  lemma PausedBase(prior: seq<Record>, log0: seq<Record>, log: seq<Record>, run: nat, turn: nat, size: Block -> nat,
                   done: seq<Call>, calls: seq<Call>, k: nat, approval: nat)
    requires Base(prior, log0, run, done, calls) && PausedAt(log0, log, calls, k, approval, run, turn)
    ensures k < |calls| && Replay(log).Some? && Replay(log0).Some?
    ensures PausedRun(prior, log, run, turn, size, done + calls[..k], calls[k], approval, calls[k + 1..])
    ensures Replay(log).value.recovery == Replay(log0).value.recovery
    ensures Turns(prior, log, run) == Turns(prior, log0, run) + {turn}
    ensures OutputBytes(prior, log, size) == OutputBytes(prior, log0, size)
  {
    PausedCounts(prior, log0, log, run, turn, size, CallIds(calls[..k]));
    PausedFacts(Replay(log0).value, Replay(log).value, calls, k, approval, run, turn);
    SplitAt(done, calls, k);
    assert Replay(log).value.recovery == Replay(log0).value.recovery;
    hide Replay, Answered, RequestedCalls, CallIds, Distinct, TurnPaused, PausedLog, Unfinished, Quiet, Segment, WaitingState;
  }

  // --------------------------------------------------------- resumed approvals

  /** Denying the approval: its resolution, an error terminal and the result message. */
  function DenialRecords(c: Call, approval: nat, at: int, terminal: Terminal, message: nat): seq<Record> {
    [ApprovalResolved(approval, DenyCall, at), ToolExecutionFinished(c.id, terminal),
     MessageCommitted(ToolResult(message, c.id, c.name, terminal))]
  }

  predicate Timely(s: State, approval: nat, at: int) {
    approval in s.pending && s.pending[approval].at <= at < s.pending[approval].expires
  }

  /** The store accepts a denial exactly inside the approval's validity window. */
  lemma DenialState(s: State, run: nat, turn: nat, c: Call, approval: nat, rest: seq<Call>, at: int, terminal: Terminal,
                    message: nat)
    requires WaitingState(s, run, turn, c, approval, rest) && terminal.isError && message !in s.messageIds
    requires Distinct([c] + rest)
    ensures ApplyAll(s, DenialRecords(c, approval, at, terminal, message)).Some? <==> Timely(s, approval, at)
    ensures Timely(s, approval, at) ==>
              && Quiet(ApplyAll(s, DenialRecords(c, approval, at, terminal, message)).value, rest)
              && ApplyAll(s, DenialRecords(c, approval, at, terminal, message)).value.recovery == s.recovery
              && c.id in ApplyAll(s, DenialRecords(c, approval, at, terminal, message)).value.tools
              && !Authorized(ApplyAll(s, DenialRecords(c, approval, at, terminal, message)).value.tools[c.id])
  {
    var rs := DenialRecords(c, approval, at, terminal, message);
    if Timely(s, approval, at) {
      var s1 := SetTool(s, c.id, s.tools[c.id].(resolution := Some(DenyCall))).(pending := s.pending - {approval});
      var s2 := SetTool(s1, c.id, s1.tools[c.id].(execution := Finished(terminal)));
      var s3 := SetTool(s2, c.id, s2.tools[c.id].(result := Some(message))).(messageIds := s.messageIds + {message});
      ThreeSteps(s, rs, s1, s2, s3);
      NotHead(c, rest);
      assert s1.pending == map[];
    }
  }

  lemma NotHead(c: Call, rest: seq<Call>)
    requires Distinct([c] + rest)
    ensures c.id !in Ids(rest) && Distinct(rest)
  {
    var all := [c] + rest;
    forall i | 0 <= i < |rest| ensures rest[i].id != c.id { assert all[0] == c && all[i + 1] == rest[i]; }
    forall i, j | 0 <= i < j < |rest| ensures rest[i].id != rest[j].id {
      assert all[i + 1] == rest[i] && all[j + 1] == rest[j];
    }
  }

  /** Granting the approval: its resolution and the durable start. */
  function GrantRecords(c: Call, approval: nat, decision: ApprovalDecision, at: int): seq<Record> {
    [ApprovalResolved(approval, decision, at), ToolExecutionStarted(c.id)]
  }

  /** Only `c` runs; `rest` is untouched and everything else answered. */
  predicate RunningState(s: State, c: Call, rest: seq<Call>) {
    && s.pending == map[] && Executing(s, c) && AllFresh(s, rest)
    && forall id <- s.tools :: id == c.id || id in Ids(rest) || s.tools[id].result.Some?
  }

  lemma GrantState(s: State, run: nat, turn: nat, c: Call, approval: nat, rest: seq<Call>, decision: ApprovalDecision, at: int)
    requires WaitingState(s, run, turn, c, approval, rest) && decision != DenyCall && Distinct([c] + rest)
    ensures ApplyAll(s, GrantRecords(c, approval, decision, at)).Some? <==> Timely(s, approval, at)
    ensures Timely(s, approval, at) ==>
              && RunningState(ApplyAll(s, GrantRecords(c, approval, decision, at)).value, c, rest)
              && ApplyAll(s, GrantRecords(c, approval, decision, at)).value.recovery == s.recovery
  {
    var rs := GrantRecords(c, approval, decision, at);
    if Timely(s, approval, at) {
      var s1 := SetTool(s, c.id, s.tools[c.id].(resolution := Some(decision))).(pending := s.pending - {approval});
      var s2 := SetTool(s1, c.id, s1.tools[c.id].(execution := Started));
      assert Apply(s, rs[0]) == Some(s1) && Apply(s1, rs[1]) == Some(s2);
      assert rs[1..] == [rs[1]] && [rs[1]][1..] == [];
      assert ApplyAll(s1, [rs[1]]) == Some(s2);
      NotHead(c, rest);
      assert s1.pending == map[];
    }
  }

  lemma SettledRest(s: State, s': State, c: Call, rest: seq<Call>)
    requires RunningState(s, c, rest) && c.id !in Ids(rest)
    requires OnlyTools(s, s', {c.id}) && Settled(s', c.id)
    ensures Quiet(s', rest)
  {
    forall d <- rest ensures Fresh(s', d) {
      assert Fresh(s, d) && d.id in Ids(rest);
    }
  }

  /** However the approval was resolved: once its call is answered the later calls are still untouched. */
  lemma ResolvedBase(prior: seq<Record>, log: seq<Record>, log': seq<Record>, run: nat, turn: nat, size: Block -> nat,
                     done: seq<Call>, c: Call, approval: nat, rest: seq<Call>)
    requires PausedRun(prior, log, run, turn, size, done, c, approval, rest)
    requires Grown(log, log') && Replay(log').Some? && Quiet(Replay(log').value, rest)
    requires Answered(log') == Answered(log) + [c.id]
    ensures Base(prior, log', run, done + [c], rest)
    ensures SameCounters(Own(prior, log), Own(prior, log'), run, size)
  {
    hide Replay, Answered, RequestedCalls, Unfinished, Quiet, WaitingState, Distinct, SameCounters, Segment, Turns;
    var rs := GrownSplit(log, log');
    PlainAppended(prior, log, rs, run, size);
    AnsweredSince(log, rs, [c.id]);
    ShiftOne(done, c, rest);
    SameRequests(Own(prior, log), Own(prior, log'), run, size);
  }

  lemma SameRequests(a: seq<Record>, b: seq<Record>, run: nat, size: Block -> nat)
    requires SameCounters(a, b, run, size)
    ensures RequestedCalls(a) == RequestedCalls(b)
  {
  }

  lemma ShiftOne(done: seq<Call>, c: Call, rest: seq<Call>)
    requires Distinct([c] + rest)
    ensures done + ([c] + rest) == done + [c] + rest && Distinct(rest)
    ensures CallIds(done + [c]) == CallIds(done) + [c.id]
  {
    CallIdsAppend(done, [c]);
    assert CallIds([c]) == [c.id];
    NotHead(c, rest);
  }

  predicate Undecided(s: State, c: Call) {
    c.id in s.tools && s.tools[c.id].policy.None? && s.tools[c.id].execution.NotStarted?
  }

  /** Undecided requests that follow the request of `id`; `None` before that request. */
  function Remaining(log: seq<Record>, s: State, id: nat): Option<seq<Call>> {
    if log == [] then None
    else
      var found, r := Remaining(log[..|log| - 1], s, id), log[|log| - 1];
      if !r.ToolCallRequested? then found
      else if r.request.id == id then (if found.None? then Some([]) else found)
      else if found.Some? && Undecided(s, r.request) then Some(found.value + [r.request])
      else found
  }

  method RemainingToolCalls(log: seq<Record>, s: State, id: nat) returns (calls: seq<Call>)
    ensures calls == (match Remaining(log, s, id) case None => [] case Some(found) => found)
  {
    var after := false;
    calls := [];
    for i := 0 to |log|
      invariant Remaining(log[..i], s, id) == if after then Some(calls) else None
      invariant !after ==> calls == []
    {
      assert log[..i + 1][..i] == log[..i];
      if log[i].ToolCallRequested? {
        if log[i].request.id == id {
          after := true;
        } else if after && Undecided(s, log[i].request) {
          calls := calls + [log[i].request];
        }
      }
    }
    assert log[..|log|] == log;
  }

  /** Requests of an accepted log are distinct. */
  lemma {:induction false} RequestsDistinct(log: seq<Record>)
    requires Replay(log).Some?
    ensures Distinct(RequestedCalls(log)) && forall c <- RequestedCalls(log) :: c.id in Replay(log).value.tools
  {
    if |log| > 1 {
      var front, r := log[..|log| - 1], log[|log| - 1];
      RequestsDistinct(front);
      var s, s' := Replay(front).value, Replay(log).value;
      forall c <- RequestedCalls(front) ensures c.id in s'.tools {
        if Touched(s, r) != Some(c.id) { Untouched(s, r, c.id); }
      }
    } else {
      assert log[..0] == [];
    }
  }

  lemma {:induction false} NotYetRequested(log: seq<Record>, s: State, id: nat)
    requires id !in Ids(RequestedCalls(log))
    ensures Remaining(log, s, id).None?
  {
    if log != [] {
      var front := log[..|log| - 1];
      forall c <- RequestedCalls(front) ensures c.id != id { assert c in RequestedCalls(log); }
      NotYetRequested(front, s, id);
    }
  }

  /** The scan finds exactly the calls after the resolved one, as long as those are untouched. */
  lemma {:induction false} RemainingIsRest(log: seq<Record>, s: State, before: seq<Call>, c: Call, rest: seq<Call>)
    requires RequestedCalls(log) == before + ([c] + rest) && Distinct(before + ([c] + rest)) && AllFresh(s, rest)
    ensures Remaining(log, s, c.id) == Some(rest)
  {
    var front, r := log[..|log| - 1], log[|log| - 1];
    var reqs := before + ([c] + rest);
    if !r.ToolCallRequested? {
      RemainingIsRest(front, s, before, c, rest);
    } else if rest == [] {
      assert RequestedCalls(front) == reqs[..|reqs| - 1] == before;
      forall d <- before ensures d.id != c.id {
        var i :| 0 <= i < |before| && before[i] == d;
        assert reqs[i] == d && reqs[|before|] == c;
      }
      NotYetRequested(front, s, c.id);
      assert r.request == reqs[|reqs| - 1] == c;
    } else {
      var rest', d := rest[..|rest| - 1], rest[|rest| - 1];
      assert RequestedCalls(front) == reqs[..|reqs| - 1] == before + ([c] + rest');
      assert r.request == reqs[|reqs| - 1] == d;
      assert reqs[|before|] == c;
      DistinctPrefix(reqs);
      RemainingIsRest(front, s, before, c, rest');
      assert d in rest && Fresh(s, d);
      assert d.id != c.id && rest == rest' + [d];
    }
  }

  lemma DistinctPrefix(reqs: seq<Call>)
    requires reqs != [] && Distinct(reqs)
    ensures Distinct(reqs[..|reqs| - 1])
  {
  }

  /** After a resolution the scan returns exactly the untouched rest of the turn. */
  lemma RemainingAfter(prior: seq<Record>, log: seq<Record>, run: nat, done: seq<Call>, c: Call, rest: seq<Call>)
    requires Base(prior, log, run, done + [c], rest)
    ensures Remaining(log, Replay(log).value, c.id) == Some(rest)
  {
    RequestsDistinct(log);
    assert log == prior + Own(prior, log);
    RequestsAppend(prior, Own(prior, log));
    var before := RequestedCalls(prior) + done;
    assert RequestedCalls(log) == before + ([c] + rest);
    RemainingIsRest(log, Replay(log).value, before, c, rest);
  }

  lemma {:induction false} RequestsAppend(log: seq<Record>, rs: seq<Record>)
    ensures RequestedCalls(log + rs) == RequestedCalls(log) + RequestedCalls(rs)
    decreases |rs|
  {
    if rs == [] {
      assert log + rs == log;
    } else {
      var front := rs[..|rs| - 1];
      assert (log + rs)[..|log + rs| - 1] == log + front;
      RequestsAppend(log, front);
    }
  }

  // ---------------------------------------------------------- rebuilt counters

  lemma {:induction false} TurnsAppend(prior: seq<Record>, own: seq<Record>, run: nat)
    requires NoCheckpointOf(prior, run)
    ensures CheckpointedTurns(prior + own, run) == CheckpointedTurns(own, run)
    decreases |own|, |prior|
  {
    if own != [] {
      var front := own[..|own| - 1];
      assert (prior + own)[..|prior + own| - 1] == prior + front;
      TurnsAppend(prior, front, run);
    } else if prior != [] {
      assert prior + own == prior && prior[..|prior| - 1] + [] == prior[..|prior| - 1];
      TurnsAppend(prior[..|prior| - 1], [], run);
    }
  }

  lemma {:induction false} SomeCheckpoint(own: seq<Record>, run: nat, turn: nat)
    requires turn in CheckpointedTurns(own, run)
    ensures HasCheckpoint(own)
  {
    var last := own[|own| - 1];
    if last.TurnCheckpointed? {
      assert last in own;
    } else {
      SomeCheckpoint(own[..|own| - 1], run, turn);
      var r :| r in own[..|own| - 1] && r.TurnCheckpointed?;
      assert r in own;
    }
  }

  /**
   The counters a resumed run rebuilds: its own checkpointed turns exactly, and its
   own assistant bytes plus what an earlier run left without a checkpoint.
  */
  lemma RebuiltCounters(prior: seq<Record>, log: seq<Record>, run: nat, turn: nat, size: Block -> nat)
    requires Unfinished(prior, log, run) && turn in Turns(prior, log, run) && Segment(Own(prior, log), size) == 0
    ensures CheckpointedTurns(log, run) == Turns(prior, log, run)
    ensures CreditedBytes(log, run, size) == OutputBytes(prior, log, size) + Segment(prior, size)
  {
    assert log == prior + Own(prior, log);
    TurnsAppend(prior, Own(prior, log), run);
    SomeCheckpoint(Own(prior, log), run, turn);
    RebuiltBytes(prior, Own(prior, log), run, size);
  }

  // ------------------------------------------------------------------- endings

  /** The run stopped: without a finishing checkpoint, or with one that is the latest checkpoint. */
  ghost predicate Halted(log: seq<Record>, run: nat, tainted: bool) {
    && Replay(log).Some?
    && (FinishCount(log, run) == 0 || Done(log, run, tainted))
  }

  /** The run's one finishing checkpoint is the latest; `tainted` says whether it was interrupted before. */
  ghost predicate Done(log: seq<Record>, run: nat, tainted: bool) {
    && Replay(log).Some? && FinishCount(log, run) == 1 && FinishedLast(log, run)
    && (run in Replay(log).value.recovery <==> tainted)
  }

  lemma DoneEndings(log: seq<Record>, run: nat, tainted: bool)
    requires Done(log, run, tainted)
    ensures Endings(log, run) == 1 + One(tainted)
  {
    RecoveryMatchesLog(log, run);
    EndingsSplit(log, run);
  }

  /** A stopped run has exactly one ending once its ending is ensured, unless it finished after an interruption. */
  lemma HaltedEndings(log: seq<Record>, run: nat, turn: nat, cancelled: bool, tainted: bool)
    requires Halted(log, run, tainted)
    ensures Endings(Ended(log, run, turn, cancelled), run) == 1 + One(tainted && FinishCount(log, run) == 1)
    ensures FinishCount(Ended(log, run, turn, cancelled), run) == FinishCount(log, run)
  {
    EndedExactlyOnce(log, run, turn, cancelled);
    RecoveryMatchesLog(log, run);
    EndingsSplit(log, run);
    EndingsSnoc(log, EndingRecord(run, turn, cancelled), run);
    if FinishCount(log, run) == 1 { DoneEndings(log, run, tainted); }
  }

  // ------------------------------------------------------- what every log shows

  ghost predicate PausedOn(prior: seq<Record>, log: seq<Record>, run: nat, size: Block -> nat, approval: nat) {
    exists turn, done, c, rest :: PausedRun(prior, log, run, turn, size, done, c, approval, rest)
  }

  /** The calls answered so far are the first calls the run requested, each once and in source order. */
  ghost predicate AnswersInOrder(prior: seq<Record>, log: seq<Record>) {
    Answered(Own(prior, log)) <= CallIds(RequestedCalls(Own(prior, log)))
  }

  /** Since `prior` only this run was checkpointed, and it finished at most once. */
  predicate FinishesOnce(prior: seq<Record>, log: seq<Record>, run: nat) {
    && prior <= log && NoCheckpointOf(prior, run) && OnlyCheckpointsOf(Own(prior, log), run)
    && FinishCount(log, run) <= 1
  }

  /** The run finished at most once, answers are in order, and an open approval is one the run can be resumed on. */
  ghost predicate Trace(prior: seq<Record>, log: seq<Record>, run: nat, size: Block -> nat) {
    && FinishesOnce(prior, log, run) && Replay(log).Some? && AnswersInOrder(prior, log)
    && (Replay(log).value.pending == map[] || exists approval: nat :: PausedOn(prior, log, run, size, approval))
  }

  lemma PrefixOfIds(done: seq<Call>, calls: seq<Call>, f: nat)
    requires f <= |calls|
    ensures CallIds(done) + CallIds(calls[..f]) <= CallIds(done + calls)
  {
    CallIdsAppend(done, calls[..f]);
    CallIdsAppend(done + calls[..f], calls[f..]);
    assert done + calls[..f] + calls[f..] == done + calls;
  }

  lemma BaseTrace(prior: seq<Record>, log: seq<Record>, run: nat, size: Block -> nat, done: seq<Call>, calls: seq<Call>)
    requires Base(prior, log, run, done, calls)
    ensures Trace(prior, log, run, size)
  {
    PrefixOfIds(done, calls, 0);
    assert calls[..0] == [] && CallIds([]) == [] && CallIds(done) + [] == CallIds(done);
  }

  lemma PausedTrace(prior: seq<Record>, log: seq<Record>, run: nat, turn: nat, size: Block -> nat,
                    done: seq<Call>, c: Call, approval: nat, rest: seq<Call>)
    requires PausedRun(prior, log, run, turn, size, done, c, approval, rest)
    ensures Trace(prior, log, run, size)
    ensures PausedOn(prior, log, run, size, approval)
  {
    assert PausedOn(prior, log, run, size, approval);
    hide PausedOn, Replay, Unfinished, Answered, RequestedCalls, Own, Distinct, WaitingState, Segment;
    PrefixOfIds(done, [c] + rest, 0);
    assert ([c] + rest)[..0] == [] && CallIds([]) == [] && CallIds(done) + [] == CallIds(done);
  }

  lemma EndingIsPlain(run: nat, turn: nat, cancelled: bool)
    ensures Plain([EndingRecord(run, turn, cancelled)]) && Answered([EndingRecord(run, turn, cancelled)]) == []
  {
    assert [EndingRecord(run, turn, cancelled)][..0] == [];
  }

  /** A record that closes no turn, answers nothing and touches no call or approval. */
  ghost predicate Neutral(log: seq<Record>, r: Record) {
    && Plain([r]) && Answered([r]) == [] && Replay(log).Some? && Replay(log + [r]).Some?
    && var s, s' := Replay(log).value, Replay(log + [r]).value;
       s' == s.(recovery := s'.recovery, messageIds := s'.messageIds)
  }

  lemma EndingIsNeutral(log: seq<Record>, run: nat, turn: nat, cancelled: bool)
    requires Replay(log).Some? && Replay(log + [EndingRecord(run, turn, cancelled)]).Some?
    ensures Neutral(log, EndingRecord(run, turn, cancelled))
    ensures run in Replay(log + [EndingRecord(run, turn, cancelled)]).value.recovery
  {
    EndingIsPlain(run, turn, cancelled);
    assert (log + [EndingRecord(run, turn, cancelled)])[..|log|] == log;
  }

  /** A paused run keeps its open approval and can still be resumed, also once it is recorded as ended. */
  lemma PauseKept(prior: seq<Record>, log: seq<Record>, run: nat, turn: nat, size: Block -> nat,
                  done: seq<Call>, c: Call, approval: nat, rest: seq<Call>, r: Record)
    requires PausedRun(prior, log, run, turn, size, done, c, approval, rest) && Neutral(log, r)
    ensures PausedRun(prior, log + [r], run, turn, size, done, c, approval, rest)
  {
    hide Replay, Answered, RequestedCalls, Segment, CheckpointedTurns, AssistantBytes, FinishCount, Plain, Own, Distinct, Unfinished;
    PlainAppended(prior, log, [r], run, size);
    assert Answered(Own(prior, log)) + [] == Answered(Own(prior, log));
  }

  lemma OpenKept(prior: seq<Record>, log: seq<Record>, run: nat, size: Block -> nat, approval: nat, r: Record)
    requires PausedOn(prior, log, run, size, approval) && Neutral(log, r)
    ensures PausedOn(prior, log + [r], run, size, approval)
  {
    hide PausedRun, Neutral;
    var turn, done, c, rest :| PausedRun(prior, log, run, turn, size, done, c, approval, rest);
    PauseKept(prior, log, run, turn, size, done, c, approval, rest, r);
  }

  lemma TraceKept(prior: seq<Record>, log: seq<Record>, run: nat, size: Block -> nat, r: Record)
    requires Trace(prior, log, run, size) && Neutral(log, r)
    ensures Trace(prior, log + [r], run, size)
  {
    OwnAppend(prior, log, [r]);
    PlainCountsNothing(Own(prior, log), [r], run, size);
    AnsweredAppend(Own(prior, log), [r]);
    FinishesAppend(log, [r], run);
    NoFinishes([r], run);
    assert Answered(Own(prior, log)) + [] == Answered(Own(prior, log));
    if Replay(log).value.pending != map[] {
      var approval: nat :| PausedOn(prior, log, run, size, approval);
      OpenKept(prior, log, run, size, approval, r);
    }
  }

  lemma EndedTrace(prior: seq<Record>, log: seq<Record>, run: nat, size: Block -> nat, turn: nat, cancelled: bool)
    requires Trace(prior, log, run, size) && Replay(log + [EndingRecord(run, turn, cancelled)]).Some?
    ensures Trace(prior, log + [EndingRecord(run, turn, cancelled)], run, size)
  {
    hide FinishesOnce, AnswersInOrder, PausedOn;
    EndingIsNeutral(log, run, turn, cancelled);
    TraceKept(prior, log, run, size, EndingRecord(run, turn, cancelled));
  }

  /** Whatever a failing turn wrote, its answers are the first calls of the run. */
  lemma AdvancedTrace(prior: seq<Record>, log0: seq<Record>, log: seq<Record>, run: nat, size: Block -> nat,
                      done: seq<Call>, calls: seq<Call>)
    requires Base(prior, log0, run, done, calls) && Advanced(log0, log, calls)
    ensures Trace(prior, log, run, size) && Unfinished(prior, log, run)
    ensures Turns(prior, log, run) == Turns(prior, log0, run) && OutputBytes(prior, log, size) == OutputBytes(prior, log0, size)
  {
    hide Replay, Answered, CallIds, Quiet, Segment, FinishCount, Plain, Distinct;
    var f: nat :| AnsweredTo(log0, log, calls, f);
    var rs := GrownSplit(log0, log);
    PlainAppended(prior, log0, rs, run, size);
    AnsweredSince(log0, rs, CallIds(calls[..f]));
    PrefixOfIds(done, calls, f);
    QuietPending(Replay(log0).value, calls);
  }

  /** Once its approval is resolved, a paused run has answered the calls before `c` and perhaps `c`. */
  lemma ResolvedTrace(prior: seq<Record>, log0: seq<Record>, log: seq<Record>, run: nat, turn: nat, size: Block -> nat,
                      done: seq<Call>, c: Call, approval: nat, rest: seq<Call>, answered: bool)
    requires PausedRun(prior, log0, run, turn, size, done, c, approval, rest)
    requires Grown(log0, log) && Replay(log).Some? && Replay(log).value.pending == map[]
    requires Answered(log) == Answered(log0) + (if answered then [c.id] else [])
    ensures Trace(prior, log, run, size) && Unfinished(prior, log, run)
    ensures Turns(prior, log, run) == Turns(prior, log0, run) && OutputBytes(prior, log, size) == OutputBytes(prior, log0, size)
  {
    hide Replay, Answered, WaitingState, Segment, FinishCount, Plain, Distinct;
    var rs := GrownSplit(log0, log);
    PlainAppended(prior, log0, rs, run, size);
    AnsweredSince(log0, rs, if answered then [c.id] else []);
    var f := if answered then 1 else 0;
    PrefixOfIds(done, [c] + rest, f);
    assert ([c] + rest)[..f] == if answered then [c] else [];
    assert CallIds([]) == [] && CallIds([c]) == [c.id];
    assert AnswersInOrder(prior, log);
  }

  lemma QuietPending(s: State, calls: seq<Call>)
    requires Quiet(s, calls)
    ensures s.pending == map[]
  {
  }
}

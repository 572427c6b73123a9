/**
 The record groups the kernel commits for tool calls, and exactly what the
 session reducer makes of each: which groups it accepts and which state results.
*/
module ToolRecords {
  import opened Basics
  import opened SessionLog

  function Ids(calls: seq<Call>): set<nat> {
    set c <- calls :: c.id
  }

  predicate Distinct(calls: seq<Call>) {
    forall i, j :: 0 <= i < j < |calls| ==> calls[i].id != calls[j].id
  }

  /** A requested call nothing has been decided about. */
  predicate Fresh(s: State, c: Call) {
    c.id in s.tools && s.tools[c.id] == NewTool(c)
  }

  predicate AllFresh(s: State, calls: seq<Call>) {
    forall c <- calls :: Fresh(s, c)
  }

  /** A call with its one result message committed. */
  predicate Settled(s: State, id: nat) {
    id in s.tools && s.tools[id].result.Some?
  }

  predicate AllSettled(s: State, calls: seq<Call>) {
    forall c <- calls :: Settled(s, c.id)
  }

  predicate Executing(s: State, c: Call) {
    && c.id in s.tools && s.tools[c.id].call == c
    && s.tools[c.id].execution.Started? && s.tools[c.id].result == None
  }

  /** Only the tool states of `ids` and the set of message ids may differ. */
  predicate OnlyTools(s: State, s': State, ids: set<nat>) {
    && s' == s.(tools := s'.tools, messageIds := s'.messageIds)
    && s'.tools.Keys == s.tools.Keys
    && s.messageIds <= s'.messageIds
    && forall id <- s.tools :: id !in ids ==> s'.tools[id] == s.tools[id]
  }

  // ----------------------------------------------------------------- starts

  function StartRecords(batch: seq<Call>): seq<Record> {
    if batch == [] then []
    else [PolicyDecisionRecorded(batch[0].id, Allow), ToolExecutionStarted(batch[0].id)] + StartRecords(batch[1..])
  }

  lemma {:induction false} StartsAccepted(s: State, batch: seq<Call>)
    requires Distinct(batch) && AllFresh(s, batch)
    ensures ApplyAll(s, StartRecords(batch)).Some?
    ensures OnlyTools(s, ApplyAll(s, StartRecords(batch)).value, Ids(batch))
    ensures forall c <- batch :: Executing(ApplyAll(s, StartRecords(batch)).value, c)
    decreases |batch|
  {
    if batch != [] {
      var c := batch[0];
      var rs := StartRecords(batch);
      var s1 := SetTool(s, c.id, NewTool(c).(policy := Some(Allow)));
      var s2 := SetTool(s1, c.id, s1.tools[c.id].(execution := Started));
      assert Fresh(s, c) && Apply(s, rs[0]) == Some(s1) && Apply(s1, rs[1]) == Some(s2);
      assert rs[1..][1..] == StartRecords(batch[1..]);
      assert ApplyAll(s, rs) == ApplyAll(s2, StartRecords(batch[1..]));
      forall d <- batch[1..] ensures Fresh(s2, d) && d.id != c.id {
        assert d in batch && Fresh(s, d);
      }
      StartsAccepted(s2, batch[1..]);
    }
  }

  /** Starting a batch is refused as soon as one of its calls was decided before. */
  lemma {:induction false} StartsNeedUndecided(s: State, batch: seq<Call>, c: Call)
    requires c in batch && ApplyAll(s, StartRecords(batch)).Some?
    ensures c.id in s.tools && s.tools[c.id].policy == None
    decreases |batch|
  {
    var rs := StartRecords(batch);
    var s1 := Apply(s, rs[0]).value;
    assert rs[1..][1..] == StartRecords(batch[1..]);
    var s2 := Apply(s1, rs[1]).value;
    if c != batch[0] {
      assert c in batch[1..];
      StartsNeedUndecided(s2, batch[1..], c);
    }
  }

  // ---------------------------------------------------------------- results

  /** Terminal and result message of every call of the batch, in source order. */
  function ResultRecords(batch: seq<Call>, terminals: map<nat, Terminal>, messages: seq<nat>): seq<Record>
    requires |messages| == |batch| && Ids(batch) <= terminals.Keys
  {
    if batch == [] then []
    else
      var c := batch[0];
      [ToolExecutionFinished(c.id, terminals[c.id]),
       MessageCommitted(ToolResult(messages[0], c.id, c.name, terminals[c.id]))]
      + ResultRecords(batch[1..], terminals, messages[1..])
  }

  predicate FreshIds(s: State, ids: seq<nat>) {
    && (forall i <- ids :: i !in s.messageIds)
    && forall i, j :: 0 <= i < j < |ids| ==> ids[i] != ids[j]
  }

  lemma OneResult(s: State, c: Call, terminal: Terminal, message: nat) returns (s2: State)
    requires Executing(s, c) && message !in s.messageIds
    ensures Apply(s, ToolExecutionFinished(c.id, terminal)).Some?
    ensures Apply(Apply(s, ToolExecutionFinished(c.id, terminal)).value,
                  MessageCommitted(ToolResult(message, c.id, c.name, terminal))) == Some(s2)
    ensures OnlyTools(s, s2, {c.id}) && Settled(s2, c.id) && s2.tools[c.id].execution == Finished(terminal)
    ensures s2.messageIds == s.messageIds + {message}
  {
    var s1 := SetTool(s, c.id, s.tools[c.id].(execution := Finished(terminal)));
    s2 := SetTool(s1, c.id, s1.tools[c.id].(result := Some(message))).(messageIds := s.messageIds + {message});
  }

  /** Each call of the batch has finished with its own terminal. */
  predicate FinishedWith(s: State, batch: seq<Call>, terminals: map<nat, Terminal>) {
    forall c <- batch :: c.id in s.tools && c.id in terminals && s.tools[c.id].execution == Finished(terminals[c.id])
  }

  lemma {:induction false} ResultsAccepted(s: State, batch: seq<Call>, terminals: map<nat, Terminal>, messages: seq<nat>)
    requires |messages| == |batch| && Ids(batch) <= terminals.Keys
    requires Distinct(batch) && FreshIds(s, messages)
    requires forall c <- batch :: Executing(s, c)
    ensures ApplyAll(s, ResultRecords(batch, terminals, messages)).Some?
    ensures
      var s' := ApplyAll(s, ResultRecords(batch, terminals, messages)).value;
      OnlyTools(s, s', Ids(batch)) && AllSettled(s', batch) && FinishedWith(s', batch, terminals)
    decreases |batch|
  {
    if batch != [] {
      var c := batch[0];
      var rs := ResultRecords(batch, terminals, messages);
      assert Executing(s, c);
      var s2 := OneResult(s, c, terminals[c.id], messages[0]);
      var rest := ResultRecords(batch[1..], terminals, messages[1..]);
      assert rs[1..][1..] == rest;
      assert ApplyAll(s, rs) == ApplyAll(s2, rest);
      forall d <- batch[1..] ensures Executing(s2, d) && d.id != c.id {
        assert d in batch && Executing(s, d);
      }
      ResultsAccepted(s2, batch[1..], terminals, messages[1..]);
    }
  }

  // ----------------------------------------------------------- interruptions

  function InterruptRecords(batch: seq<Call>): seq<Record> {
    if batch == [] then [] else [ToolExecutionInterrupted(batch[0].id)] + InterruptRecords(batch[1..])
  }

  /** A call whose execution was interrupted, so that its outcome stays unknown. */
  predicate Uncertain(s: State, id: nat) {
    id in s.tools && s.tools[id].execution.Interrupted? && s.tools[id].result == None
  }

  lemma {:induction false} InterruptsAccepted(s: State, batch: seq<Call>)
    requires Distinct(batch) && forall c <- batch :: Executing(s, c)
    ensures ApplyAll(s, InterruptRecords(batch)).Some?
    ensures OnlyTools(s, ApplyAll(s, InterruptRecords(batch)).value, Ids(batch))
    ensures forall c <- batch :: Uncertain(ApplyAll(s, InterruptRecords(batch)).value, c.id)
    decreases |batch|
  {
    if batch != [] {
      var c := batch[0];
      assert Executing(s, c);
      var s1 := SetTool(s, c.id, s.tools[c.id].(execution := Interrupted));
      assert InterruptRecords(batch)[1..] == InterruptRecords(batch[1..]);
      forall d <- batch[1..] ensures Executing(s1, d) && d.id != c.id {
        assert d in batch && Executing(s, d);
      }
      InterruptsAccepted(s1, batch[1..]);
    }
  }

  // ---------------------------------------------------------------- refusals

  /** A call that never executes: its denial, error terminal and result message. */
  function DenyRecords(c: Call, terminal: Terminal, message: nat): seq<Record> {
    [PolicyDecisionRecorded(c.id, Deny), ToolExecutionFinished(c.id, terminal),
     MessageCommitted(ToolResult(message, c.id, c.name, terminal))]
  }

  lemma DenyAccepted(s: State, c: Call, terminal: Terminal, message: nat)
    requires Fresh(s, c) && terminal.isError && message !in s.messageIds
    ensures ApplyAll(s, DenyRecords(c, terminal, message)).Some?
    ensures
      var s' := ApplyAll(s, DenyRecords(c, terminal, message)).value;
      OnlyTools(s, s', {c.id}) && Settled(s', c.id) && s'.tools[c.id].policy == Some(Deny)
  {
    var rs := DenyRecords(c, terminal, message);
    var s1 := SetTool(s, c.id, NewTool(c).(policy := Some(Deny)));
    var s2 := SetTool(s1, c.id, s1.tools[c.id].(execution := Finished(terminal)));
    var s3 := SetTool(s2, c.id, s2.tools[c.id].(result := Some(message))).(messageIds := s.messageIds + {message});
    ThreeSteps(s, rs, s1, s2, s3);
  }

  lemma ThreeSteps(s: State, rs: seq<Record>, s1: State, s2: State, s3: State)
    requires |rs| == 3
    requires Apply(s, rs[0]) == Some(s1) && Apply(s1, rs[1]) == Some(s2) && Apply(s2, rs[2]) == Some(s3)
    ensures ApplyAll(s, rs) == Some(s3)
  {
    assert rs[1..][1..] == [rs[2]] && rs[1..][1..][1..] == [];
    assert ApplyAll(s2, [rs[2]]) == Some(s3);
    assert ApplyAll(s1, rs[1..]) == Some(s3);
  }

  // --------------------------------------------------------------- approvals

  /** Call `c` waits on the open approval `a`. */
  predicate WaitsOn(s: State, c: Call, a: nat) {
    && c.id in s.tools
    && s.tools[c.id] == NewTool(c).(policy := Some(RequireApproval), approval := Some(a))
    && a in s.pending && s.pending[a].call == c.id
  }

  function WaitRecords(c: Call, a: nat, at: int, expires: int, run: nat, turn: nat): seq<Record> {
    [PolicyDecisionRecorded(c.id, RequireApproval), ApprovalRequested(a, c.id, at, expires),
     TurnCheckpointed(run, turn, WaitForApproval)]
  }

  lemma WaitAccepted(s: State, c: Call, a: nat, at: int, expires: int, run: nat, turn: nat)
    requires Fresh(s, c) && a !in s.approvalIds && at < expires
    ensures
      ApplyAll(s, WaitRecords(c, a, at, expires, run, turn)) ==
      Some(s.(tools := s.tools[c.id := NewTool(c).(policy := Some(RequireApproval), approval := Some(a))],
              approvalIds := s.approvalIds + {a},
              pending := s.pending[a := Pending(c.id, expires, at)],
              checkpoint := Some(Checkpoint(run, turn, WaitForApproval))))
  {
    var rs := WaitRecords(c, a, at, expires, run, turn);
    var s1 := SetTool(s, c.id, NewTool(c).(policy := Some(RequireApproval)));
    var waiting := NewTool(c).(policy := Some(RequireApproval), approval := Some(a));
    var s2 := SetTool(s, c.id, waiting)
              .(approvalIds := s.approvalIds + {a}, pending := s.pending[a := Pending(c.id, expires, at)]);
    assert s1.tools[c.id := waiting] == s.tools[c.id := waiting];
    ThreeSteps(s, rs, s1, s2, s2.(checkpoint := Some(Checkpoint(run, turn, WaitForApproval))));
  }

  // ------------------------------------------------------------ declarations

  function RequestRecords(calls: seq<Call>): seq<Record> {
    if calls == [] then [] else [ToolCallRequested(calls[0])] + RequestRecords(calls[1..])
  }

  lemma {:induction false} DeclareAccepts(declared: map<nat, Call>, tools: map<nat, ToolState>, calls: seq<Call>)
    requires Distinct(calls) && forall c <- calls :: c.id !in declared && c.id !in tools
    ensures Declare(declared, tools, calls).Some?
    ensures
      var d := Declare(declared, tools, calls).value;
      (forall c <- calls :: c.id in d && d[c.id] == c) && (forall id <- declared :: id in d && d[id] == declared[id])
    decreases |calls|
  {
    if calls != [] {
      forall c <- calls[1..] ensures c.id != calls[0].id && c.id !in declared && c.id !in tools {
        assert c in calls;
      }
      DeclareAccepts(declared[calls[0].id := calls[0]], tools, calls[1..]);
    }
  }

  /** Only new tool states, one for each requested call. */
  predicate Requested(s: State, s': State, calls: seq<Call>) {
    && s' == s.(tools := s'.tools)
    && (forall id <- s.tools :: id in s'.tools && s'.tools[id] == s.tools[id])
    && (forall id <- s'.tools :: id in s.tools || id in Ids(calls))
    && AllFresh(s', calls)
  }

  lemma RequestedMore(s: State, s1: State, s': State, calls: seq<Call>)
    requires calls != [] && Distinct(calls) && calls[0].id !in s.tools
    requires s1 == SetTool(s, calls[0].id, NewTool(calls[0])) && Requested(s1, s', calls[1..])
    ensures Requested(s, s', calls)
  {
    assert calls == [calls[0]] + calls[1..];
    assert Fresh(s', calls[0]);
  }

  lemma {:induction false} RequestsAccepted(s: State, calls: seq<Call>)
    requires Distinct(calls)
    requires forall c <- calls :: c.id in s.declared && s.declared[c.id] == c && c.id !in s.tools
    ensures ApplyAll(s, RequestRecords(calls)).Some?
    ensures Requested(s, ApplyAll(s, RequestRecords(calls)).value, calls)
    decreases |calls|
  {
    if calls != [] {
      var c := calls[0];
      var s1 := SetTool(s, c.id, NewTool(c));
      assert RequestRecords(calls)[1..] == RequestRecords(calls[1..]);
      forall d <- calls[1..] ensures d.id in s1.declared && s1.declared[d.id] == d && d.id !in s1.tools {
        assert d in calls;
      }
      RequestsAccepted(s1, calls[1..]);
      assert Apply(s, RequestRecords(calls)[0]) == Some(s1);
      RequestedMore(s, s1, ApplyAll(s1, RequestRecords(calls[1..])).value, calls);
    }
  }
}

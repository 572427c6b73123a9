/**
 The durable session log: its records, the reducer that materializes state from
 them, and what every log the reducer accepts is guaranteed to satisfy.

 A store appends a transaction only if the reducer accepts every record of it in
 turn; otherwise the log stays as it was.  The model covers one branch.
*/
module SessionLog {
  import opened Basics

  // ---------------------------------------------------------------- content

  /** A requested tool call; names and arguments are opaque values. */
  datatype Call = Call(id: nat, name: nat, arguments: nat)

  datatype Block =
    | Text(text: Bytes)
    | ContextualText(text: Bytes)
    | Thinking(text: Bytes)
    | Image
    | ToolCall(call: Call, provider: nat)
    | HostedTool(id: nat, provider: nat, name: nat, activity: nat)
    | Citation(source: nat, tool: Option<nat>)

  /** Bytes one block contributes; `size` is the JSON length of hosted blocks. */
  function BlockBytes(b: Block, size: Block -> nat): nat {
    match b
    case Text(t) => |t|
    case ContextualText(t) => |t|
    case Thinking(t) => |t|
    case Image => 0
    case ToolCall(_, _) => 0
    case HostedTool(_, _, _, _) => size(b)
    case Citation(_, _) => size(b)
  }

  function ContentBytes(content: seq<Block>, size: Block -> nat): nat {
    if content == [] then 0
    else ContentBytes(content[..|content| - 1], size) + BlockBytes(content[|content| - 1], size)
  }

  /** The tool calls an assistant message declares, in source order. */
  function DeclaredCalls(content: seq<Block>): seq<Call> {
    if content == [] then []
    else
      var last := content[|content| - 1];
      DeclaredCalls(content[..|content| - 1]) + (if last.ToolCall? then [last.call] else [])
  }

  datatype Terminal = Terminal(isError: bool, payload: nat)

  datatype Message =
    | User(id: nat, content: seq<Block>)
    | Assistant(id: nat, content: seq<Block>)
    | ToolResult(id: nat, call: nat, name: nat, terminal: Terminal)

  // ---------------------------------------------------------------- records

  datatype PolicyDecision = Allow | Deny | RequireApproval

  datatype ApprovalDecision = AllowOnce | AllowSession | DenyCall

  datatype NextAction = ModelRequest | WaitForApproval | FinishRun

  datatype Record =
    | SessionCreated
    | ConfigurationChanged
    | MessageCommitted(message: Message)
    | ToolCallRequested(request: Call)
    | PolicyDecisionRecorded(call: nat, decision: PolicyDecision)
    | ApprovalRequested(approval: nat, call: nat, at: int, expires: int)
    | ApprovalResolved(approval: nat, resolution: ApprovalDecision, at: int)
    | ToolExecutionStarted(call: nat)
    | ToolExecutionFinished(call: nat, terminal: Terminal)
    | ToolExecutionInterrupted(call: nat)
    | RunInterrupted(run: nat, turn: nat)
    | RunCancelled(run: nat)
    | SessionCompacted(summary: Message)
    | TurnCheckpointed(run: nat, turn: nat, next: NextAction)

  // ----------------------------------------------------------- materialized

  datatype Execution = NotStarted | Started | Finished(terminal: Terminal) | Interrupted

  datatype ToolState = ToolState(
    call: Call,
    policy: Option<PolicyDecision>,
    approval: Option<nat>,
    resolution: Option<ApprovalDecision>,
    execution: Execution,
    result: Option<nat>)

  datatype Pending = Pending(call: nat, expires: int, at: int)

  datatype Checkpoint = Checkpoint(run: nat, turn: nat, next: NextAction)

  datatype State = State(
    messageIds: set<nat>,
    declared: map<nat, Call>,
    tools: map<nat, ToolState>,
    approvalIds: set<nat>,
    pending: map<nat, Pending>,
    recovery: set<nat>,
    checkpoint: Option<Checkpoint>)

  const Created := State({}, map[], map[], {}, map[], {}, None)

  function NewTool(c: Call): ToolState {
    ToolState(c, None, None, None, NotStarted, None)
  }

  /** Records the declarations of one message; refuses a call id seen before. */
  function Declare(declared: map<nat, Call>, tools: map<nat, ToolState>, calls: seq<Call>): Option<map<nat, Call>>
    decreases |calls|
  {
    if calls == [] then Some(declared)
    else if calls[0].id in declared || calls[0].id in tools then None
    else Declare(declared[calls[0].id := calls[0]], tools, calls[1..])
  }

  predicate Authorized(t: ToolState) {
    match t.policy
    case Some(Allow) => true
    case Some(RequireApproval) => t.resolution == Some(AllowOnce) || t.resolution == Some(AllowSession)
    case _ => false
  }

  predicate DeniedWithoutExecution(t: ToolState, terminal: Terminal) {
    t.execution.NotStarted? && terminal.isError && (t.policy == Some(Deny) || t.resolution == Some(DenyCall))
  }

  function SetTool(s: State, c: nat, t: ToolState): State {
    s.(tools := s.tools[c := t])
  }

  /** A tool result needs the call's own matching terminal and no earlier result. */
  predicate AcceptsResult(s: State, m: Message)
    requires m.ToolResult?
  {
    && m.call in s.tools
    && s.tools[m.call].result == None
    && s.tools[m.call].execution == Finished(m.terminal)
    && s.tools[m.call].call.name == m.name
  }

  function ApplyMessage(s: State, m: Message): Option<State> {
    if m.id in s.messageIds then None
    else
      var s1 := s.(messageIds := s.messageIds + {m.id});
      match m
      case User(_, _) => Some(s1)
      case Assistant(_, content) =>
        (match Declare(s.declared, s.tools, DeclaredCalls(content))
         case None => None
         case Some(declared) => Some(s1.(declared := declared)))
      case ToolResult(id, c, _, _) =>
        if AcceptsResult(s, m) then Some(SetTool(s1, c, s.tools[c].(result := Some(id)))) else None
  }

  /** One reducer step: the next state, or `None` when the record is refused. */
  function Apply(s: State, r: Record): Option<State> {
    match r
    case SessionCreated => None
    case ConfigurationChanged => Some(s)
    case MessageCommitted(m) => ApplyMessage(s, m)
    case ToolCallRequested(c) =>
      if c.id in s.declared && s.declared[c.id] == c && c.id !in s.tools
      then Some(SetTool(s, c.id, NewTool(c))) else None
    case PolicyDecisionRecorded(c, d) =>
      if c in s.tools && s.tools[c].policy == None
      then Some(SetTool(s, c, s.tools[c].(policy := Some(d)))) else None
    case ApprovalRequested(a, c, at, expires) =>
      if a !in s.approvalIds && c in s.tools && s.tools[c].policy == Some(RequireApproval)
         && s.tools[c].approval == None && expires > at
      then Some(SetTool(s, c, s.tools[c].(approval := Some(a)))
                .(approvalIds := s.approvalIds + {a}, pending := s.pending[a := Pending(c, expires, at)]))
      else None
    case ApprovalResolved(a, d, at) =>
      if a in s.pending && s.pending[a].at <= at < s.pending[a].expires && s.pending[a].call in s.tools
      then var c := s.pending[a].call;
           Some(SetTool(s, c, s.tools[c].(resolution := Some(d))).(pending := s.pending - {a}))
      else None
    case ToolExecutionStarted(c) =>
      if c in s.tools && Authorized(s.tools[c]) && s.tools[c].execution.NotStarted?
      then Some(SetTool(s, c, s.tools[c].(execution := Started))) else None
    case ToolExecutionFinished(c, terminal) =>
      if c in s.tools && (s.tools[c].execution.Started? || DeniedWithoutExecution(s.tools[c], terminal))
      then Some(SetTool(s, c, s.tools[c].(execution := Finished(terminal)))) else None
    case ToolExecutionInterrupted(c) =>
      if c in s.tools && s.tools[c].execution.Started?
      then Some(SetTool(s, c, s.tools[c].(execution := Interrupted))) else None
    case RunInterrupted(run, _) =>
      if run in s.recovery then None else Some(s.(recovery := s.recovery + {run}))
    case RunCancelled(run) =>
      if run in s.recovery then None else Some(s.(recovery := s.recovery + {run}))
    case SessionCompacted(summary) =>
      if summary.Assistant? && summary.id !in s.messageIds
      then Some(s.(messageIds := s.messageIds + {summary.id})) else None
    case TurnCheckpointed(run, turn, next) => Some(s.(checkpoint := Some(Checkpoint(run, turn, next))))
  }

  /** Materialized state of a whole log, `None` when some record is refused. */
  function Replay(log: seq<Record>): Option<State> {
    if log == [] then None
    else if |log| == 1 then (if log[0] == SessionCreated then Some(Created) else None)
    else
      match Replay(log[..|log| - 1])
      case None => None
      case Some(s) => Apply(s, log[|log| - 1])
  }

  /** A transaction: every record in turn, all or nothing. */
  function ApplyAll(s: State, rs: seq<Record>): Option<State>
    decreases |rs|
  {
    if rs == [] then Some(s)
    else
      match Apply(s, rs[0])
      case None => None
      case Some(s1) => ApplyAll(s1, rs[1..])
  }

  lemma {:induction false} ReplayAppend(log: seq<Record>, rs: seq<Record>)
    requires log != []
    ensures Replay(log + rs) == (match Replay(log) case None => None case Some(s) => ApplyAll(s, rs))
    decreases |rs|
  {
    if rs == [] {
      assert log + rs == log;
    } else {
      var next := log + [rs[0]];
      assert next[..|next| - 1] == log;
      assert next + rs[1..] == log + rs;
      ReplayAppend(next, rs[1..]);
      if Replay(log).None? || Replay(next).None? {
      }
    }
  }

  lemma {:induction false} ApplyAllSplit(s: State, a: seq<Record>, b: seq<Record>)
    ensures ApplyAll(s, a + b) == (match ApplyAll(s, a) case None => None case Some(t) => ApplyAll(t, b))
    decreases |a|
  {
    if a == [] {
      assert a + b == b;
    } else {
      assert (a + b)[1..] == a[1..] + b;
      match Apply(s, a[0]) {
        case None =>
        case Some(s1) => ApplyAllSplit(s1, a[1..], b);
      }
    }
  }

  // --------------------------------------------- what every accepted log says

  predicate Denied(t: ToolState) {
    t.policy == Some(Deny) || t.resolution == Some(DenyCall)
  }

  predicate ToolOk(t: ToolState) {
    && (t.approval.Some? ==> t.policy == Some(RequireApproval))
    && (t.resolution.Some? ==> t.approval.Some?)
    && (t.execution.Started? || t.execution.Interrupted? ==> Authorized(t))
    && (t.execution.Finished? ==> Authorized(t) || (Denied(t) && t.execution.terminal.isError))
    && (t.result.Some? ==> t.execution.Finished?)
  }

  /** The open approval `a` belongs to one call that still waits for it. */
  predicate Awaiting(s: State, a: nat, c: nat) {
    && c in s.tools
    && s.tools[c].policy == Some(RequireApproval)
    && s.tools[c].approval == Some(a)
    && s.tools[c].resolution == None
  }

  predicate StateOk(s: State) {
    && (forall c <- s.tools :: s.tools[c].call.id == c && c in s.declared && ToolOk(s.tools[c]))
    && (forall c <- s.declared :: s.declared[c].id == c)
    && (forall a <- s.pending :: Awaiting(s, a, s.pending[a].call))
  }

  lemma {:induction false} ReplayOk(log: seq<Record>)
    requires Replay(log).Some?
    ensures StateOk(Replay(log).value)
  {
    if |log| > 1 {
      ReplayOk(log[..|log| - 1]);
      ApplyOk(Replay(log[..|log| - 1]).value, log[|log| - 1]);
    }
  }

  lemma {:induction false} DeclareKeeps(declared: map<nat, Call>, tools: map<nat, ToolState>, calls: seq<Call>)
    requires Declare(declared, tools, calls).Some?
    requires forall c <- declared :: declared[c].id == c
    ensures forall c <- declared :: c in Declare(declared, tools, calls).value
    ensures forall c <- Declare(declared, tools, calls).value :: Declare(declared, tools, calls).value[c].id == c
    decreases |calls|
  {
    if calls != [] {
      DeclareKeeps(declared[calls[0].id := calls[0]], tools, calls[1..]);
    }
  }

  /** The call whose tool state a record may change. */
  function Touched(s: State, r: Record): Option<nat> {
    match r
    case MessageCommitted(ToolResult(_, c, _, _)) => Some(c)
    case ToolCallRequested(c) => Some(c.id)
    case PolicyDecisionRecorded(c, _) => Some(c)
    case ApprovalRequested(_, c, _, _) => Some(c)
    case ApprovalResolved(a, _, _) => if a in s.pending then Some(s.pending[a].call) else None
    case ToolExecutionStarted(c) => Some(c)
    case ToolExecutionFinished(c, _) => Some(c)
    case ToolExecutionInterrupted(c) => Some(c)
    case _ => None
  }

  lemma Untouched(s: State, r: Record, c: nat)
    requires Apply(s, r).Some? && Touched(s, r) != Some(c)
    ensures (c in Apply(s, r).value.tools) == (c in s.tools)
    ensures c in s.tools ==> Apply(s, r).value.tools[c] == s.tools[c]
  {
  }

  lemma ToolStepOk(s: State, r: Record, c: nat)
    requires StateOk(s) && Apply(s, r).Some?
    requires c in Apply(s, r).value.tools
    ensures Apply(s, r).value.tools[c].call.id == c && ToolOk(Apply(s, r).value.tools[c])
  {
    if Touched(s, r) != Some(c) {
      Untouched(s, r, c);
    } else if r.ApprovalResolved? {
      assert Awaiting(s, r.approval, c);
    }
  }

  lemma DeclaredStepOk(s: State, r: Record)
    requires StateOk(s) && Apply(s, r).Some?
    ensures forall c <- Apply(s, r).value.tools :: c in Apply(s, r).value.declared
    ensures forall c <- Apply(s, r).value.declared :: Apply(s, r).value.declared[c].id == c
  {
    if r.MessageCommitted? && r.message.Assistant? {
      DeclareKeeps(s.declared, s.tools, DeclaredCalls(r.message.content));
    } else {
      assert Apply(s, r).value.declared == s.declared;
      forall c <- Apply(s, r).value.tools ensures c in s.declared {
        if Touched(s, r) != Some(c) { Untouched(s, r, c); }
      }
    }
  }

  lemma PendingStepOk(s: State, r: Record, a: nat)
    requires StateOk(s) && Apply(s, r).Some?
    requires a in Apply(s, r).value.pending
    ensures Awaiting(Apply(s, r).value, a, Apply(s, r).value.pending[a].call)
  {
    if r.ApprovalRequested? && r.approval == a {
    } else {
      assert a in s.pending && Apply(s, r).value.pending[a] == s.pending[a];
      var c := s.pending[a].call;
      assert Awaiting(s, a, c);
      if Touched(s, r) != Some(c) {
        Untouched(s, r, c);
      }
    }
  }

  lemma ApplyOk(s: State, r: Record)
    requires StateOk(s) && Apply(s, r).Some?
    ensures StateOk(Apply(s, r).value)
  {
    var s' := Apply(s, r).value;
    DeclaredStepOk(s, r);
    forall c <- s'.tools ensures s'.tools[c].call.id == c && ToolOk(s'.tools[c]) { ToolStepOk(s, r, c); }
    forall a <- s'.pending ensures Awaiting(s', a, s'.pending[a].call) { PendingStepOk(s, r, a); }
  }

  datatype Mark = Requests | Decides | Starts | Finishes | Interrupts | Answers

  /** Whether record `r` makes lifecycle step `m` of call `c`. */
  predicate Marks(r: Record, c: nat, m: Mark) {
    match m
    case Requests => r.ToolCallRequested? && r.request.id == c
    case Decides => r.PolicyDecisionRecorded? && r.call == c
    case Starts => r == ToolExecutionStarted(c)
    case Finishes => r.ToolExecutionFinished? && r.call == c
    case Interrupts => r == ToolExecutionInterrupted(c)
    case Answers => r.MessageCommitted? && r.message.ToolResult? && r.message.call == c
  }

  function One(b: bool): nat {
    if b then 1 else 0
  }

  function Count(log: seq<Record>, c: nat, m: Mark): nat {
    if log == [] then 0
    else Count(log[..|log| - 1], c, m) + One(Marks(log[|log| - 1], c, m))
  }

  /** How often a log materialized as `s` has made step `m` of call `c`. */
  function Expected(s: State, c: nat, m: Mark): nat {
    if c !in s.tools then 0
    else
      var t := s.tools[c];
      match m
      case Requests => 1
      case Decides => One(t.policy.Some?)
      case Starts => One(!t.execution.NotStarted? && Authorized(t))
      case Finishes => One(t.execution.Finished?)
      case Interrupts => One(t.execution.Interrupted?)
      case Answers => One(t.result.Some?)
  }

  lemma ExpectedStep(s: State, r: Record, c: nat, m: Mark)
    requires StateOk(s) && Apply(s, r).Some?
    ensures Expected(Apply(s, r).value, c, m) == Expected(s, c, m) + One(Marks(r, c, m))
  {
    if Touched(s, r) != Some(c) {
      Untouched(s, r, c);
    } else if r.ApprovalResolved? {
      assert Awaiting(s, r.approval, c);
    }
  }

  /** The materialized state of an accepted log knows exactly how often each step was made. */
  lemma {:induction false} CountsMatchState(log: seq<Record>, c: nat, m: Mark)
    requires Replay(log).Some?
    ensures Count(log, c, m) == Expected(Replay(log).value, c, m)
  {
    if |log| > 1 {
      var before := log[..|log| - 1];
      CountsMatchState(before, c, m);
      ReplayOk(before);
      ExpectedStep(Replay(before).value, log[|log| - 1], c, m);
    } else {
      assert log[..0] == [];
    }
  }

  /**
   Every log the reducer accepts requests, decides, starts, finishes, interrupts
   and answers each tool call at most once; it never both finishes and interrupts
   a call, never starts one that was not decided, and answers only finished ones.
  */
  lemma LifecycleAtMostOnce(log: seq<Record>, c: nat)
    requires Replay(log).Some?
    ensures Count(log, c, Requests) <= 1
    ensures Count(log, c, Starts) <= Count(log, c, Decides) <= Count(log, c, Requests)
    ensures Count(log, c, Finishes) + Count(log, c, Interrupts) <= 1
    ensures Count(log, c, Answers) <= Count(log, c, Finishes)
  {
    ReplayOk(log);
    forall m { CountsMatchState(log, c, m); }
  }

  // ------------------------------------------------ authority of executions

  /** An approval of call `c` was requested and granted inside its validity window. */
  ghost predicate Approved(log: seq<Record>, c: nat) {
    exists a, at, expires, d, now ::
      && ApprovalRequested(a, c, at, expires) in log
      && ApprovalResolved(a, d, now) in log
      && d != DenyCall && at <= now < expires
  }

  ghost predicate Witnessed(log: seq<Record>, s: State) {
    && (forall c <- s.tools :: s.tools[c].policy.Some? ==>
          PolicyDecisionRecorded(c, s.tools[c].policy.value) in log)
    && (forall c <- s.tools :: s.tools[c].resolution.Some? && s.tools[c].resolution != Some(DenyCall) ==>
          Approved(log, c))
    && (forall a <- s.pending ::
          ApprovalRequested(a, s.pending[a].call, s.pending[a].at, s.pending[a].expires) in log)
  }

  lemma ApprovedGrows(log: seq<Record>, r: Record, c: nat)
    requires Approved(log, c)
    ensures Approved(log + [r], c)
  {
    var a, at, expires, d, now :|
      && ApprovalRequested(a, c, at, expires) in log
      && ApprovalResolved(a, d, now) in log
      && d != DenyCall && at <= now < expires;
    assert ApprovalRequested(a, c, at, expires) in log + [r];
    assert ApprovalResolved(a, d, now) in log + [r];
  }

  lemma WitnessStep(log: seq<Record>, s: State, r: Record)
    requires Witnessed(log, s) && StateOk(s) && Apply(s, r).Some?
    ensures Witnessed(log + [r], Apply(s, r).value)
  {
    var s', log' := Apply(s, r).value, log + [r];
    assert r in log' && forall q <- log :: q in log';
    forall c <- s'.tools
      ensures s'.tools[c].policy.Some? ==> PolicyDecisionRecorded(c, s'.tools[c].policy.value) in log'
    {
      if Touched(s, r) != Some(c) { Untouched(s, r, c); }
    }
    forall c <- s'.tools | s'.tools[c].resolution.Some? && s'.tools[c].resolution != Some(DenyCall)
      ensures Approved(log', c)
    {
      if c in s.tools && s'.tools[c].resolution == s.tools[c].resolution {
        ApprovedGrows(log, r, c);
      } else {
        if Touched(s, r) != Some(c) { Untouched(s, r, c); }
        assert r.ApprovalResolved? && s.pending[r.approval].call == c;
        var p := s.pending[r.approval];
        assert ApprovalRequested(r.approval, c, p.at, p.expires) in log';
      }
    }
  }

  lemma {:induction false} ReplayWitnessed(log: seq<Record>)
    requires Replay(log).Some?
    ensures Witnessed(log, Replay(log).value)
  {
    if |log| > 1 {
      var before := log[..|log| - 1];
      ReplayWitnessed(before);
      ReplayOk(before);
      WitnessStep(before, Replay(before).value, log[|log| - 1]);
      assert before + [log[|log| - 1]] == log;
    }
  }

  /** In an accepted log no tool execution starts without an earlier policy Allow or a granted approval. */
  lemma ExecutionNeedsAuthority(before: seq<Record>, c: nat, after: seq<Record>)
    requires Replay(before + [ToolExecutionStarted(c)] + after).Some?
    ensures
      || PolicyDecisionRecorded(c, Allow) in before
      || (PolicyDecisionRecorded(c, RequireApproval) in before && Approved(before, c))
  {
    var started := before + [ToolExecutionStarted(c)];
    ReplayAppend(started, after);
    assert started[..|started| - 1] == before;
    assert Replay(before).Some?;
    ReplayWitnessed(before);
  }

  // -------------------------------------------------- new runs and dead ends

  /** A session accepts a new run only with no open approval and every call answered. */
  predicate CanStartRun(s: State) {
    s.pending == map[] && forall c <- s.tools :: s.tools[c].result.Some?
  }

  lemma {:induction false} InterruptionIsFinal(s: State, rs: seq<Record>, c: nat)
    requires c in s.tools && s.tools[c].execution.Interrupted? && s.tools[c].result == None
    requires ApplyAll(s, rs).Some?
    ensures
      var t := ApplyAll(s, rs).value.tools;
      c in t && t[c].execution.Interrupted? && t[c].result == None
    decreases |rs|
  {
    if rs != [] {
      if Touched(s, rs[0]) != Some(c) { Untouched(s, rs[0], c); }
      InterruptionIsFinal(Apply(s, rs[0]).value, rs[1..], c);
    }
  }

  /** Once a call's execution was interrupted, no continuation of the log can start a new run. */
  lemma InterruptedCallBlocksNewRuns(log: seq<Record>, more: seq<Record>, c: nat)
    requires Replay(log + more).Some? && ToolExecutionInterrupted(c) in log
    ensures !CanStartRun(Replay(log + more).value)
  {
    var i :| 0 <= i < |log| && log[i] == ToolExecutionInterrupted(c);
    var upto, rest := log[..i + 1], log[i + 1..] + more;
    assert upto + rest == log + more;
    ReplayAppend(upto, rest);
    assert upto[..|upto| - 1] == log[..i];
    assert Replay(upto).Some?;
    ReplayOk(log[..i]);
    InterruptionIsFinal(Replay(upto).value, rest, c);
  }

  // ------------------------------------------------------------ run endings

  predicate EndsAbnormally(r: Record, run: nat) {
    r == RunCancelled(run) || (r.RunInterrupted? && r.run == run)
  }

  predicate FinishesRun(r: Record, run: nat) {
    r.TurnCheckpointed? && r.run == run && r.next.FinishRun?
  }

  /** Number of endings a log holds for a run: cancelled, interrupted, or a finishing checkpoint. */
  function Endings(log: seq<Record>, run: nat): nat {
    if log == [] then 0
    else
      var last := log[|log| - 1];
      Endings(log[..|log| - 1], run) + One(EndsAbnormally(last, run) || FinishesRun(last, run))
  }

  function AbnormalEndings(log: seq<Record>, run: nat): nat {
    if log == [] then 0
    else AbnormalEndings(log[..|log| - 1], run) + One(EndsAbnormally(log[|log| - 1], run))
  }

  function LastCheckpoint(log: seq<Record>): Option<Checkpoint> {
    if log == [] then None
    else
      var last := log[|log| - 1];
      if last.TurnCheckpointed? then Some(Checkpoint(last.run, last.turn, last.next))
      else LastCheckpoint(log[..|log| - 1])
  }

  /** What the recovery projection and the latest checkpoint mean in terms of the log alone. */
  lemma {:induction false} RecoveryMatchesLog(log: seq<Record>, run: nat)
    requires Replay(log).Some?
    ensures AbnormalEndings(log, run) == One(run in Replay(log).value.recovery)
    ensures Replay(log).value.checkpoint == LastCheckpoint(log)
  {
    if |log| > 1 {
      RecoveryMatchesLog(log[..|log| - 1], run);
    } else {
      assert log[..0] == [];
    }
  }
}

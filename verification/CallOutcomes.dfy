/**
 What a session says about its calls against what policy and tools say: every call
 is decided as policy decides it, every execution's outcome is the tool's own, and
 every answer in the log carries that outcome.
*/
module CallOutcomes {
  import opened Basics
  import opened SessionLog
  import opened ToolRecords
  import opened Scheduler
  import TT = ToolTurn

  /**
   What policy and tools answer for each call.  A call identity is used once in a
   session, so a function of it is as general as any behaviour over time.
  */
  datatype World = World(verdict: nat -> TT.Class, kind: nat -> SchedulerClass, exec: nat -> Option<Terminal>)

  /** The durable decision policy's verdict leads to. */
  function DecisionFor(verdict: TT.Class): PolicyDecision {
    match verdict
    case Allowed => Allow
    case Ask => RequireApproval
    case _ => Deny
  }

  predicate HonestTool(id: nat, t: ToolState, w: World) {
    && (t.policy.Some? ==> t.policy.value == DecisionFor(w.verdict(id)))
    && (t.execution.Finished? && Authorized(t) ==> w.exec(id) == Some(t.execution.terminal))
  }

  /** Decisions are policy's and outcomes are the tools'. */
  predicate Honest(s: State, w: World) {
    forall id <- s.tools :: HonestTool(id, s.tools[id], w)
  }

  /** The call ran and was answered with its own result. */
  predicate Ran(s: State, id: nat, w: World) {
    && id in s.tools && s.tools[id].policy == Some(Allow) && s.tools[id].result.Some?
    && w.exec(id).Some? && s.tools[id].execution == Finished(w.exec(id).value)
  }

  /** The call was refused without running, and answered with an error. */
  predicate Refused(s: State, id: nat) {
    && id in s.tools && s.tools[id].policy == Some(Deny) && s.tools[id].result.Some?
    && s.tools[id].execution.Finished? && s.tools[id].execution.terminal.isError
  }

  /** The call was answered as policy decides: run if allowed, refused if not, and after an approval as that decided. */
  predicate Served(s: State, id: nat, w: World) {
    match w.verdict(id)
    case Allowed => Ran(s, id, w)
    case Ask =>
      && Settled(s, id) && s.tools[id].resolution.Some? && s.tools[id].execution.Finished?
      && if s.tools[id].resolution == Some(DenyCall) then s.tools[id].execution.terminal.isError
         else w.exec(id) == Some(s.tools[id].execution.terminal)
    case _ => Refused(s, id)
  }

  /** In an honest session every answered call was served as policy decides, with its own result. */
  lemma SettledIsServed(s: State, id: nat, w: World)
    requires StateOk(s) && Honest(s, w) && Settled(s, id)
    ensures Served(s, id, w)
  {
    assert ToolOk(s.tools[id]) && HonestTool(id, s.tools[id], w);
  }

  lemma AllServed(log: seq<Record>, w: World)
    requires Replay(log).Some? && Honest(Replay(log).value, w)
    ensures forall id: nat :: Settled(Replay(log).value, id) ==> Served(Replay(log).value, id, w)
  {
    ReplayOk(log);
    hide Replay, Honest, StateOk, Served;
    forall id: nat | Settled(Replay(log).value, id) ensures Served(Replay(log).value, id, w) {
      SettledIsServed(Replay(log).value, id, w);
    }
  }

  // ------------------------------------------------------------ what is recorded

  /** The record tells the truth; `refused` are calls that are not run. */
  predicate HonestRecord(r: Record, w: World, refused: set<nat>) {
    && (r.PolicyDecisionRecorded? ==> r.decision == DecisionFor(w.verdict(r.call)))
    && (r.ToolExecutionFinished? ==> w.exec(r.call) == Some(r.terminal) || r.call in refused)
  }

  predicate HonestBut(s: State, w: World, refused: set<nat>) {
    forall id <- s.tools :: HonestTool(id, s.tools[id], w) || (id in refused && HonestPolicy(id, s.tools[id], w))
  }

  predicate HonestPolicy(id: nat, t: ToolState, w: World) {
    t.policy.Some? ==> t.policy.value == DecisionFor(w.verdict(id))
  }

  lemma HonestStep(s: State, r: Record, w: World, refused: set<nat>)
    requires StateOk(s) && HonestBut(s, w, refused) && Apply(s, r).Some? && HonestRecord(r, w, refused)
    ensures HonestBut(Apply(s, r).value, w, refused)
  {
    var s' := Apply(s, r).value;
    forall id <- s'.tools ensures HonestTool(id, s'.tools[id], w) || (id in refused && HonestPolicy(id, s'.tools[id], w)) {
      if Touched(s, r) != Some(id) {
        hide Apply;
        Untouched(s, r, id);
      } else {
        TouchedHonest(s, r, id, w, refused);
      }
    }
  }

  lemma TouchedHonest(s: State, r: Record, id: nat, w: World, refused: set<nat>)
    requires StateOk(s) && HonestBut(s, w, refused) && Apply(s, r).Some? && HonestRecord(r, w, refused)
    requires Touched(s, r) == Some(id) && id in Apply(s, r).value.tools
    ensures
      var t := Apply(s, r).value.tools[id];
      HonestTool(id, t, w) || (id in refused && HonestPolicy(id, t, w))
  {
    if id in s.tools {
      assert ToolOk(s.tools[id]);
    }
    match r {
      case ApprovalResolved(a, _, _) => assert Awaiting(s, a, s.pending[a].call);
      case _ =>
    }
  }

  lemma {:induction false} HonestSteps(s: State, rs: seq<Record>, w: World, refused: set<nat>)
    requires StateOk(s) && HonestBut(s, w, refused) && ApplyAll(s, rs).Some? && forall r <- rs :: HonestRecord(r, w, refused)
    ensures HonestBut(ApplyAll(s, rs).value, w, refused)
    decreases |rs|
  {
    if rs != [] {
      hide Apply, StateOk, HonestBut, HonestRecord;
      assert rs[0] in rs && forall r <- rs[1..] :: r in rs;
      HonestStep(s, rs[0], w, refused);
      ApplyOk(s, rs[0]);
      HonestSteps(Apply(s, rs[0]).value, rs[1..], w, refused);
    }
  }

  /** Truthful records keep a session honest, as long as no refused call ends up authorized. */
  lemma HonestAll(s: State, rs: seq<Record>, w: World, refused: set<nat>)
    requires StateOk(s) && Honest(s, w) && ApplyAll(s, rs).Some? && forall r <- rs :: HonestRecord(r, w, refused)
    requires forall id <- refused :: id in ApplyAll(s, rs).value.tools ==> !Authorized(ApplyAll(s, rs).value.tools[id])
    ensures Honest(ApplyAll(s, rs).value, w)
  {
    HonestSteps(s, rs, w, refused);
  }

  /** Records that decide nothing and finish nothing. */
  predicate DecidesNothing(rs: seq<Record>) {
    forall r <- rs :: !r.PolicyDecisionRecorded? && !r.ToolExecutionFinished?
  }

  lemma HonestQuietly(log: seq<Record>, rs: seq<Record>, w: World)
    requires Replay(log).Some? && Honest(Replay(log).value, w) && DecidesNothing(rs)
    ensures ApplyAll(Replay(log).value, rs).Some? ==> Honest(ApplyAll(Replay(log).value, rs).value, w)
  {
    ReplayOk(log);
    hide Honest, StateOk, Replay, ApplyAll;
    if ApplyAll(Replay(log).value, rs).Some? {
      HonestAll(Replay(log).value, rs, w, {});
    }
  }

  /** Only the tool states of `ids` differ, and each of them is honest. */
  lemma HonestOnly(s: State, s': State, ids: set<nat>, w: World)
    requires Honest(s, w) && OnlyTools(s, s', ids)
    requires forall id <- ids :: id in s'.tools ==> HonestTool(id, s'.tools[id], w)
    ensures Honest(s', w)
  {
    forall id <- s'.tools ensures HonestTool(id, s'.tools[id], w) {
      if id !in ids {
        assert s'.tools[id] == s.tools[id] && HonestTool(id, s.tools[id], w);
      }
    }
  }

  // ------------------------------------------------------------ what is answered

  /** A settled call is never touched again. */
  lemma SettledStays(s: State, r: Record, id: nat)
    requires StateOk(s) && Apply(s, r).Some? && Settled(s, id)
    ensures id in Apply(s, r).value.tools && Apply(s, r).value.tools[id] == s.tools[id]
  {
    assert ToolOk(s.tools[id]);
    if r.ApprovalResolved? {
      assert Awaiting(s, r.approval, s.pending[r.approval].call);
    }
  }

  /** Every answer in an accepted log is the outcome recorded for its own call. */
  lemma {:induction false} AnswersMatch(log: seq<Record>, k: nat)
    requires Replay(log).Some? && k < |log| && log[k].MessageCommitted? && log[k].message.ToolResult?
    ensures
      var s, m := Replay(log).value, log[k].message;
      && m.call in s.tools && s.tools[m.call].result == Some(m.id) && s.tools[m.call].execution == Finished(m.terminal)
      && s.tools[m.call].call.name == m.name
    decreases |log|
  {
    var n := |log| - 1;
    assert n > 0;
    var front := log[..n];
    if k < n {
      assert front[k] == log[k];
      AnswersMatch(front, k);
      ReplayOk(front);
      SettledStays(Replay(front).value, log[n], log[k].message.call);
    }
  }

  /**
   So in an honest session every answer is the result of its own call if policy, or
   an approval, let it run, and an error if not.
  */
  lemma AnswersAreTrue(log: seq<Record>, k: nat, w: World)
    requires Replay(log).Some? && Honest(Replay(log).value, w)
    requires k < |log| && log[k].MessageCommitted? && log[k].message.ToolResult?
    ensures
      var m := log[k].message;
      && m.call in Replay(log).value.tools
      && var t := Replay(log).value.tools[m.call];
      match w.verdict(m.call)
      case Allowed => w.exec(m.call) == Some(m.terminal)
      case Ask => if t.resolution == Some(DenyCall) then m.terminal.isError else w.exec(m.call) == Some(m.terminal)
      case _ => m.terminal.isError
  {
    AnswersMatch(log, k);
    ReplayOk(log);
    hide Replay;
    SettledIsServed(Replay(log).value, log[k].message.call, w);
  }

  /** Every accepted log is honest about some world, so starting from an honest one excludes nothing. */
  lemma SomeWorld(log: seq<Record>) returns (w: World)
    requires Replay(log).Some?
    ensures Honest(Replay(log).value, w)
  {
    var tools := Replay(log).value.tools;
    w := World(
      id => if id !in tools || tools[id].policy.None? then TT.Allowed
            else match tools[id].policy.value case Allow => TT.Allowed case Deny => TT.Denied case RequireApproval => TT.Ask,
      _ => Serial,
      id => if id in tools && tools[id].execution.Finished? then Some(tools[id].execution.terminal) else None);
  }
}

/**
 The MCP manager's reconnect and shutdown operations over the clients it owns, as
 steps between awaits.  Any number of reconnect tasks and one shutdown interleave
 with calls on every server; a client is an id that was started and is shut down
 once.  Reconnect tasks are polled to completion.
*/
module McpManager {
  import opened Basics
  import Slot = ConnectionSlot

  /** The server's operation lock; shutdown holds it only inside one step. */
  datatype Lock = Free | HeldBy(task: nat)

  /** The part of shutdown that owns one server: not reached, closing, draining, done. */
  datatype Closing = Untouched | Shutting | Draining | Drained

  /** `maxAttempts` is the reconnect policy; reconnecting is disabled when it is zero. */
  datatype Server = Server(conn: Slot.Conn, client: Option<nat>, lock: Lock, closing: Closing, dying: Option<nat>, maxAttempts: nat)

  /** What follows once a discarded candidate is shut down. */
  datatype Then = Stop | Fail(error: Slot.Code) | Retry | Leave

  /** Where a reconnect task is; all but `AwaitLock` and `Finished` hold the operation lock. */
  datatype Pc =
    | AwaitLock | Entered | Admitted | Emptied | Cleared | Attempting | Launching | Discovering | Judging
    | Discarding(after: Then) | BackingOff | Completing | Storing | Finished

  datatype Task = Task(server: nat, pc: Pc, client: Option<nat>, attempt: nat)

  /** `started`, `stored` and `closed` record which clients were started, installed by a reconnect, and shut down. */
  datatype Manager = Manager(
    servers: seq<Server>, tasks: map<nat, Task>, cancelled: bool, stopped: nat, taken: nat, returned: bool,
    started: set<nat>, stored: set<nat>, closed: multiset<nat>)

  /** What an attempt gives: no client, one whose snapshot drifted, one without a handle, or a good one. */
  datatype Verdict = Missing(error: Slot.Code) | Drifted | NoHandle(error: Slot.Code) | Good

  datatype Step =
    | CallStarts(server: nat, report: Slot.Report)
    | CallEnds(server: nat)
    | Begin(task: nat, server: nat, report: Slot.Report)
    | TakeLock(task: nat)
    | Enter(task: nat)
    | TakeOld(task: nat)
    | CloseOld(task: nat)
    | Recheck(task: nat)
    | RecordAttempt(task: nat)
    | Launch(task: nat, client: Option<nat>)
    | Discover(task: nat, ok: bool)
    | Judge(task: nat, verdict: Verdict)
    | Discard(task: nat)
    | BackOff(task: nat)
    | Complete(task: nat, handle: nat)
    | Store(task: nat)
    | Cancel
    | StopSlot
    | TakeClient
    | CloseTaken(server: nat)
    | FinishDrain(server: nat)
    | Return

  function SetServer(m: Manager, i: nat, s: Server): Manager
    requires i < |m.servers|
  {
    m.(servers := m.servers[i := s])
  }

  function SetTask(m: Manager, t: nat, task: Task): Manager {
    m.(tasks := m.tasks[t := task])
  }

  /** Shuts down a client, if there is one. */
  function Close(m: Manager, c: Option<nat>): Manager {
    if c.None? then m else m.(closed := m.closed + multiset{c.value})
  }

  /** A reconnect leaves: its guard has set the slot to `conn`, and the lock is released. */
  function Left(m: Manager, t: nat, conn: Slot.Conn): Manager
    requires t in m.tasks && m.tasks[t].server < |m.servers|
  {
    var i := m.tasks[t].server;
    SetTask(SetServer(m, i, m.servers[i].(conn := conn, lock := Free)), t,
            m.tasks[t].(pc := Finished, client := None))
  }

  predicate At(m: Manager, t: nat, pc: Pc) {
    t in m.tasks && m.tasks[t].pc == pc && m.tasks[t].server < |m.servers|
  }

  function Conn(m: Manager, t: nat): Slot.Conn
    requires t in m.tasks && m.tasks[t].server < |m.servers|
  {
    m.servers[m.tasks[t].server].conn
  }

  function Goto(m: Manager, t: nat, pc: Pc): Manager
    requires t in m.tasks
  {
    SetTask(m, t, m.tasks[t].(pc := pc))
  }

  /** This attempt is the last the policy allows. */
  predicate LastAttempt(m: Manager, t: nat)
    requires t in m.tasks && m.tasks[t].server < |m.servers|
  {
    m.tasks[t].attempt >= m.servers[m.tasks[t].server].maxAttempts
  }

  /** The candidate after `initialize_restart`: shutdown is checked first, then the verdict. */
  function Judged(m: Manager, t: nat, verdict: Verdict): Manager
    requires At(m, t, Judging)
  {
    if m.cancelled then
      (if m.tasks[t].client.Some? then Goto(m, t, Discarding(Stop)) else Left(m, t, Slot.Shut(Conn(m, t))))
    else
      match verdict
      case Missing(error) => if LastAttempt(m, t) then Left(m, t, Slot.Failed(Conn(m, t), error)) else Goto(m, t, BackingOff)
      case Drifted => Goto(m, t, Discarding(Fail(Slot.Descriptor)))
      case NoHandle(error) => Goto(m, t, Discarding(if LastAttempt(m, t) then Fail(error) else Retry))
      case Good => Goto(m, t, Completing)
  }

  /** The discarded candidate is shut down, then the guard ends or the next attempt waits. */
  function Discarded(m: Manager, t: nat): Manager
    requires t in m.tasks && m.tasks[t].pc.Discarding? && m.tasks[t].server < |m.servers|
  {
    var n := Close(m, m.tasks[t].client);
    match m.tasks[t].pc.after
    case Stop => Left(n, t, Slot.Shut(Conn(m, t)))
    case Fail(error) => Left(n, t, Slot.Failed(Conn(m, t), error))
    case Leave => Left(n, t, Conn(m, t))
    case Retry => SetTask(n, t, m.tasks[t].(pc := BackingOff, client := None))
  }

  /** One step; `None` when it cannot happen now. */
  function Next(m: Manager, step: Step): Option<Manager> {
    match step
    case CallStarts(i, r) =>
      if i < |m.servers| then Some(SetServer(m, i, m.servers[i].(conn := Slot.Acquired(m.servers[i].conn, r).0))) else None
    case CallEnds(i) =>
      if i < |m.servers| then Some(SetServer(m, i, m.servers[i].(conn := Slot.Released(m.servers[i].conn)))) else None
    case Begin(t, i, r) =>
      if i >= |m.servers| || t in m.tasks || m.servers[i].maxAttempts == 0 then None
      else
        var (conn, granted) := Slot.Begun(m.servers[i].conn, r);
        var n := SetServer(m, i, m.servers[i].(conn := conn));
        Some(if granted then SetTask(n, t, Task(i, AwaitLock, None, 0)) else n)
    case TakeLock(t) =>
      if At(m, t, AwaitLock) && m.servers[m.tasks[t].server].lock.Free?
      then var i := m.tasks[t].server;
           Some(Goto(SetServer(m, i, m.servers[i].(lock := HeldBy(t))), t, Entered))
      else None
    case Enter(t) =>
      if !At(m, t, Entered) then None
      else Some(if m.cancelled then Left(m, t, Slot.Shut(Conn(m, t))) else Goto(m, t, Admitted))
    case TakeOld(t) =>
      if !At(m, t, Admitted) then None
      else
        var i := m.tasks[t].server;
        Some(SetTask(SetServer(m, i, m.servers[i].(client := None)), t,
                     m.tasks[t].(pc := Emptied, client := m.servers[i].client)))
    case CloseOld(t) =>
      if At(m, t, Emptied) then Some(SetTask(Close(m, m.tasks[t].client), t, m.tasks[t].(pc := Cleared, client := None)))
      else None
    case Recheck(t) =>
      if !At(m, t, Cleared) then None
      else Some(if m.cancelled then Left(m, t, Slot.Shut(Conn(m, t))) else Goto(m, t, Attempting))
    case RecordAttempt(t) =>
      if !At(m, t, Attempting) then None
      else
        var (conn, ok) := Slot.Attempted(Conn(m, t));
        var i := m.tasks[t].server;
        Some(if ok then SetTask(SetServer(m, i, m.servers[i].(conn := conn)), t,
                                m.tasks[t].(pc := Launching, attempt := m.tasks[t].attempt + 1))
             else Left(m, t, Slot.Failed(Conn(m, t), Slot.OutputBound)))
    case Launch(t, c) =>
      if !At(m, t, Launching) || (c.Some? && c.value in m.started) then None
      else if c.None? then Some(Goto(m, t, Judging))
      else Some(SetTask(m, t, m.tasks[t].(pc := Discovering, client := c)).(started := m.started + {c.value}))
    case Discover(t, ok) =>
      if !At(m, t, Discovering) then None
      else if ok then Some(Goto(m, t, Judging))
      else Some(SetTask(Close(m, m.tasks[t].client), t, m.tasks[t].(pc := Judging, client := None)))
    case Judge(t, verdict) =>
      if At(m, t, Judging) && (verdict.Missing? <==> m.tasks[t].client.None?) then Some(Judged(m, t, verdict)) else None
    case Discard(t) =>
      if t in m.tasks && m.tasks[t].pc.Discarding? && m.tasks[t].server < |m.servers| then Some(Discarded(m, t)) else None
    case BackOff(t) =>
      if !At(m, t, BackingOff) then None
      else Some(if m.cancelled then Left(m, t, Slot.Shut(Conn(m, t))) else Goto(m, t, Attempting))
    case Complete(t, h) =>
      if !At(m, t, Completing) then None
      else
        var (conn, ok) := Slot.Completed(Conn(m, t), h);
        var i := m.tasks[t].server;
        Some(if ok then Goto(SetServer(m, i, m.servers[i].(conn := conn)), t, Storing)
             else Goto(m, t, Discarding(Leave)))
    case Store(t) =>
      if !At(m, t, Storing) then None
      else
        var i := m.tasks[t].server;
        Some(SetTask(SetServer(m, i, m.servers[i].(client := m.tasks[t].client, lock := Free)), t,
                     m.tasks[t].(pc := Finished, client := None))
             .(stored := m.stored + if m.tasks[t].client.Some? then {m.tasks[t].client.value} else {}))
    case Cancel => if m.cancelled then None else Some(m.(cancelled := true))
    case StopSlot =>
      if m.cancelled && m.stopped < |m.servers|
      then Some(SetServer(m, m.stopped, m.servers[m.stopped].(conn := Slot.Shut(m.servers[m.stopped].conn)))
                .(stopped := m.stopped + 1))
      else None
    case TakeClient =>
      if m.cancelled && m.stopped == |m.servers| && m.taken < |m.servers| && m.servers[m.taken].lock.Free?
      then var s := m.servers[m.taken];
           Some(SetServer(m, m.taken, s.(client := None, dying := s.client, closing := Shutting)).(taken := m.taken + 1))
      else None
    case CloseTaken(i) =>
      if i < |m.servers| && m.servers[i].closing.Shutting?
      then Some(SetServer(Close(m, m.servers[i].dying), i, m.servers[i].(dying := None, closing := Draining))) else None
    case FinishDrain(i) =>
      if i < |m.servers| && m.servers[i].closing.Draining?
      then Some(SetServer(m, i, m.servers[i].(closing := Drained))) else None
    case Return =>
      if m.taken == |m.servers| && m.cancelled && forall i :: 0 <= i < |m.servers| ==> m.servers[i].closing.Drained?
      then Some(m.(returned := true)) else None
  }

  function After(m: Manager, steps: seq<Step>): Manager {
    if steps == [] then m
    else
      var before := After(m, steps[..|steps| - 1]);
      match Next(before, steps[|steps| - 1])
      case None => before
      case Some(n) => n
  }

  // ------------------------------------------------------------ lock discipline

  predicate InRegion(pc: Pc) {
    !pc.AwaitLock? && !pc.Finished?
  }

  /** The reconnect saw, under the lock, that no shutdown had begun. */
  predicate PastCheck(pc: Pc) {
    InRegion(pc) && !pc.Entered?
  }

  /** The reconnect took the old client out and has not stored a new one. */
  predicate PastTake(pc: Pc) {
    PastCheck(pc) && !pc.Admitted?
  }

  predicate MustHold(pc: Pc) {
    pc.Discovering? || pc.Discarding? || pc.Completing? || pc.Storing?
  }

  predicate MayHold(pc: Pc) {
    MustHold(pc) || pc.Emptied? || pc.Judging?
  }

  /** The guard of this reconnect is still active. */
  predicate Guarding(pc: Pc) {
    !pc.Finished? && !pc.Storing? && pc != Discarding(Leave)
  }

  predicate Guarded(conn: Slot.Conn) {
    conn.state.Reconnecting? || conn.state.Stopped?
  }

  /** What a task's position says about itself and about its server. */
  predicate Fits(task: Task, t: nat, s: Server, taken: bool) {
    && (InRegion(task.pc) <==> s.lock == HeldBy(t))
    && (MustHold(task.pc) ==> task.client.Some?)
    && (task.client.Some? ==> MayHold(task.pc))
    && (PastCheck(task.pc) ==> !taken)
    && (PastTake(task.pc) ==> s.client == None)
    && (Guarding(task.pc) ==> Guarded(s.conn))
    && AttemptsOk(task, s.maxAttempts) && (task.pc == Discarding(Leave) ==> s.conn.state.Stopped?)
  }

  /** A reconnect never makes more attempts than its policy allows. */
  predicate AttemptsOk(task: Task, max: nat) {
    && task.attempt <= max
    && (task.pc.Attempting? || task.pc.BackingOff? || task.pc == Discarding(Retry) ==> task.attempt < max)
    && (!PastTake(task.pc) && !task.pc.Finished? ==> task.attempt == 0 < max)
    && (task.pc.Emptied? || task.pc.Cleared? ==> task.attempt == 0 < max)
  }

  predicate TaskOk(m: Manager, t: nat)
    requires t in m.tasks
  {
    var task := m.tasks[t];
    task.server < |m.servers| && Fits(task, t, m.servers[task.server], task.server < m.taken)
  }

  predicate ServerOk(m: Manager, i: nat)
    requires i < |m.servers|
  {
    var s := m.servers[i];
    && (s.lock.HeldBy? ==> s.lock.task in m.tasks && m.tasks[s.lock.task].server == i)
    && (if i < m.taken then s.client == None && !s.closing.Untouched? else s.closing.Untouched? && s.dying == None)
    && (s.closing.Draining? || s.closing.Drained? ==> s.dying == None)
  }

  predicate OneGuard(m: Manager) {
    forall t <- m.tasks, u <- m.tasks ::
      m.tasks[t].server == m.tasks[u].server && Guarding(m.tasks[t].pc) && Guarding(m.tasks[u].pc) ==> t == u
  }

  predicate Progressed(m: Manager) {
    && m.taken <= |m.servers| && m.stopped <= |m.servers|
    && (m.taken > 0 ==> m.cancelled && m.stopped == |m.servers|)
    && (m.returned ==> m.taken == |m.servers| && forall i :: 0 <= i < |m.servers| ==> m.servers[i].closing.Drained?)
  }

  predicate Orderly(m: Manager) {
    && (forall t <- m.tasks :: TaskOk(m, t))
    && (forall i :: 0 <= i < |m.servers| ==> ServerOk(m, i))
    && OneGuard(m) && Progressed(m)
  }

  /** Same shutdown progress. */
  predicate SamePhase(m: Manager, n: Manager) {
    n.cancelled == m.cancelled && n.stopped == m.stopped && n.taken == m.taken && n.returned == m.returned
  }

  /** A task outside the lock only depends on its guard and on the policy. */
  lemma OutsideFits(task: Task, u: nat, s: Server, taken: bool, s': Server, taken': bool)
    requires Fits(task, u, s, taken) && s.lock != HeldBy(u) && s'.lock != HeldBy(u)
    requires s'.maxAttempts == s.maxAttempts && (s.conn.state.Stopped? ==> s'.conn.state.Stopped?)
    requires Guarding(task.pc) ==> Guarded(s'.conn)
    ensures Fits(task, u, s', taken')
  {
  }

  /** A guarding task has a guarded slot, and shares it with no other guard. */
  lemma GuardAlone(m: Manager, t: nat, u: nat)
    requires Orderly(m) && t in m.tasks && u in m.tasks && Guarding(m.tasks[u].pc)
    ensures m.tasks[u].server < |m.servers| && Guarded(m.servers[m.tasks[u].server].conn)
    ensures t != u && m.tasks[t].server == m.tasks[u].server ==> !Guarding(m.tasks[t].pc)
  {
    assert TaskOk(m, u);
  }

  /** `n` differs from `m` in task `t` and its server only. */
  predicate Local(m: Manager, n: Manager, t: nat, task: Task, s: Server) {
    && t in m.tasks && task.server == m.tasks[t].server < |m.servers|
    && n.tasks == m.tasks[t := task] && n.servers == m.servers[task.server := s] && SamePhase(m, n)
    && s.maxAttempts == m.servers[task.server].maxAttempts
    && (m.servers[task.server].conn.state.Stopped? ==> s.conn.state.Stopped?)
    && (s.lock.Free? || s.lock == HeldBy(t))
  }

  /** The other tasks fit as before. */
  lemma LocalTask(m: Manager, n: Manager, t: nat, task: Task, s: Server, u: nat)
    requires Orderly(m) && Local(m, n, t, task, s) && u in n.tasks && u != t
    requires m.servers[task.server].lock.Free? || m.servers[task.server].lock == HeldBy(t)
    requires Guarding(task.pc) ==> Guarding(m.tasks[t].pc)
    requires Guarded(s.conn) || !Guarded(m.servers[task.server].conn) || Guarding(m.tasks[t].pc)
    ensures TaskOk(n, u)
  {
    assert TaskOk(m, u);
    if m.tasks[u].server == task.server {
      if Guarding(m.tasks[u].pc) {
        GuardAlone(m, t, u);
      }
      hide Orderly, Fits;
      OutsideFits(m.tasks[u], u, m.servers[task.server], task.server < m.taken, s, task.server < m.taken);
    }
  }

  lemma LocalGuard(m: Manager, n: Manager, t: nat, task: Task, s: Server)
    requires OneGuard(m) && Local(m, n, t, task, s) && (Guarding(task.pc) ==> Guarding(m.tasks[t].pc))
    ensures OneGuard(n)
  {
  }

  lemma LocalProgress(m: Manager, n: Manager, t: nat, task: Task, s: Server)
    requires Progressed(m) && Local(m, n, t, task, s) && s.closing == m.servers[task.server].closing
    ensures Progressed(n)
  {
  }

  lemma LocalServer(m: Manager, n: Manager, t: nat, task: Task, s: Server, j: nat)
    requires Orderly(m) && Local(m, n, t, task, s) && j < |n.servers|
    requires s.closing == m.servers[task.server].closing && s.dying == m.servers[task.server].dying
    requires task.server < m.taken ==> s.client == None
    ensures ServerOk(n, j)
  {
    assert ServerOk(m, j);
  }

  /** A task inside the lock, or taking it, changes only itself, its server and the client records. */
  lemma RegionStep(m: Manager, n: Manager, t: nat, task: Task, s: Server)
    requires Orderly(m) && Local(m, n, t, task, s)
    requires m.servers[task.server].lock.Free? || m.servers[task.server].lock == HeldBy(t)
    requires Fits(task, t, s, task.server < m.taken)
    requires s.closing == m.servers[task.server].closing && s.dying == m.servers[task.server].dying
    requires task.server < m.taken ==> s.client == None
    requires Guarding(task.pc) ==> Guarding(m.tasks[t].pc)
    requires Guarded(s.conn) || !Guarded(m.servers[task.server].conn) || Guarding(m.tasks[t].pc)
    ensures Orderly(n)
  {
    assert OneGuard(m) && Progressed(m);
    forall u <- n.tasks ensures TaskOk(n, u) {
      if u != t {
        LocalTask(m, n, t, task, s, u);
      }
    }
    forall j | 0 <= j < |n.servers| ensures ServerOk(n, j) {
      LocalServer(m, n, t, task, s, j);
    }
    LocalGuard(m, n, t, task, s);
    LocalProgress(m, n, t, task, s);
    hide TaskOk, ServerOk, OneGuard, Progressed;
  }

  lemma LeaveOrderly(m: Manager, n: Manager, t: nat, conn: Slot.Conn)
    requires Orderly(m) && t in m.tasks && InRegion(m.tasks[t].pc) && SamePhase(m, n)
    requires
      var i := m.tasks[t].server;
      && n.tasks == m.tasks[t := m.tasks[t].(pc := Finished, client := None)]
      && i < |m.servers| && n.servers == m.servers[i := m.servers[i].(conn := conn, lock := Free)]
    requires Guarded(conn) || conn == m.servers[m.tasks[t].server].conn || Guarding(m.tasks[t].pc)
    requires m.servers[m.tasks[t].server].conn.state.Stopped? ==> conn.state.Stopped?
    ensures Orderly(n)
  {
    assert TaskOk(m, t) && ServerOk(m, m.tasks[t].server);
    RegionStep(m, n, t, n.tasks[t], n.servers[m.tasks[t].server]);
  }

  lemma CheckSteps(m: Manager, step: Step)
    requires Orderly(m) && Next(m, step).Some? && (step.Enter? || step.Recheck? || step.BackOff?)
    ensures Orderly(Next(m, step).value)
  {
    hide Orderly;
    var n, t := Next(m, step).value, step.task;
    TaskAndServer(m, t);
    if m.cancelled {
      LeaveOrderly(m, n, t, Slot.Shut(Conn(m, t)));
    } else {
      assert n.servers == m.servers[m.tasks[t].server := m.servers[m.tasks[t].server]];
      RegionStep(m, n, t, n.tasks[t], m.servers[m.tasks[t].server]);
    }
  }

  lemma EarlySteps(m: Manager, step: Step)
    requires Orderly(m) && Next(m, step).Some? && (step.TakeOld? || step.CloseOld?)
    ensures Orderly(Next(m, step).value)
  {
    hide Orderly;
    var n, t := Next(m, step).value, step.task;
    TaskAndServer(m, t);
    RegionStep(m, n, t, n.tasks[t], n.servers[m.tasks[t].server]);
  }

  lemma TaskAndServer(m: Manager, t: nat)
    requires Orderly(m) && t in m.tasks
    ensures TaskOk(m, t) && m.tasks[t].server < |m.servers| && ServerOk(m, m.tasks[t].server) && Progressed(m)
  {
  }

  lemma AttemptStep(m: Manager, t: nat)
    requires Orderly(m) && Next(m, RecordAttempt(t)).Some?
    ensures Orderly(Next(m, RecordAttempt(t)).value)
  {
    hide Orderly;
    var n := Next(m, RecordAttempt(t)).value;
    TaskAndServer(m, t);
    if Slot.Attempted(Conn(m, t)).1 {
      RegionStep(m, n, t, n.tasks[t], n.servers[m.tasks[t].server]);
    } else {
      LeaveOrderly(m, n, t, Slot.Failed(Conn(m, t), Slot.OutputBound));
    }
  }

  lemma LaunchSteps(m: Manager, step: Step)
    requires Orderly(m) && Next(m, step).Some? && (step.Launch? || step.Discover?)
    ensures Orderly(Next(m, step).value)
  {
    hide Orderly;
    var n, t := Next(m, step).value, step.task;
    TaskAndServer(m, t);
    assert n.servers == m.servers[m.tasks[t].server := m.servers[m.tasks[t].server]];
    RegionStep(m, n, t, n.tasks[t], m.servers[m.tasks[t].server]);
  }

  lemma JudgeStep(m: Manager, t: nat, verdict: Verdict)
    requires Orderly(m) && At(m, t, Judging) && (verdict.Missing? <==> m.tasks[t].client.None?)
    ensures Orderly(Judged(m, t, verdict))
  {
    hide Orderly;
    var n := Judged(m, t, verdict);
    TaskAndServer(m, t);
    if n.tasks[t].pc.Finished? {
      LeaveOrderly(m, n, t, n.servers[m.tasks[t].server].conn);
    } else {
      assert n.servers == m.servers[m.tasks[t].server := m.servers[m.tasks[t].server]];
      RegionStep(m, n, t, n.tasks[t], m.servers[m.tasks[t].server]);
    }
  }

  lemma DiscardStep(m: Manager, t: nat)
    requires Orderly(m) && t in m.tasks && m.tasks[t].pc.Discarding? && m.tasks[t].server < |m.servers|
    ensures Orderly(Discarded(m, t))
  {
    hide Orderly;
    var n := Discarded(m, t);
    TaskAndServer(m, t);
    if m.tasks[t].pc.after.Retry? {
      assert n.servers == m.servers[m.tasks[t].server := m.servers[m.tasks[t].server]];
      RegionStep(m, n, t, n.tasks[t], m.servers[m.tasks[t].server]);
    } else {
      LeaveOrderly(m, n, t, n.servers[m.tasks[t].server].conn);
    }
  }

  lemma CompleteSteps(m: Manager, step: Step)
    requires Orderly(m) && Next(m, step).Some? && (step.Complete? || step.Store?)
    ensures Orderly(Next(m, step).value)
  {
    hide Orderly;
    var n, t := Next(m, step).value, step.task;
    TaskAndServer(m, t);
    RegionStep(m, n, t, n.tasks[t], n.servers[m.tasks[t].server]);
  }

  /** A step that changes one server and leaves every task and lock alone. */
  lemma ServerStep(m: Manager, n: Manager, i: nat, s: Server)
    requires Orderly(m) && i < |m.servers| && n.tasks == m.tasks && n.servers == m.servers[i := s]
    requires s.lock == m.servers[i].lock && (s.client == m.servers[i].client || s.client == None)
    requires s.maxAttempts == m.servers[i].maxAttempts && (m.servers[i].conn.state.Stopped? ==> s.conn.state.Stopped?)
    requires Guarded(s.conn) || !Guarded(m.servers[i].conn)
    requires n.taken == m.taken || (n.taken == i + 1 == m.taken + 1 && s.lock.Free?)
    requires Progressed(n) && ServerOk(n, i)
    ensures Orderly(n)
  {
    forall t <- n.tasks ensures TaskOk(n, t) { assert TaskOk(m, t); }
    forall j | 0 <= j < |n.servers| ensures ServerOk(n, j) { assert ServerOk(m, j); }
  }

  lemma ServerFacts(m: Manager, i: nat)
    requires Orderly(m) && i < |m.servers|
    ensures ServerOk(m, i) && Progressed(m)
  {
  }

  /** Calls and probes never move a slot in or out of reconnecting or stopped. */
  lemma CallSteps(m: Manager, step: Step)
    requires Orderly(m) && Next(m, step).Some? && (step.CallStarts? || step.CallEnds?)
    ensures Orderly(Next(m, step).value)
  {
    hide Orderly;
    ServerFacts(m, step.server);
    var n := Next(m, step).value;
    ServerStep(m, n, step.server, n.servers[step.server]);
  }

  /** A guard is only handed out when no other is active on that server. */
  lemma BeginStep(m: Manager, t: nat, i: nat, r: Slot.Report)
    requires Orderly(m) && Next(m, Begin(t, i, r)).Some?
    ensures Orderly(Next(m, Begin(t, i, r)).value)
  {
    hide Orderly;
    var n := Next(m, Begin(t, i, r)).value;
    ServerFacts(m, i);
    if Slot.Begun(m.servers[i].conn, r).1 {
      GuardGranted(m, n, t, i);
    } else {
      ServerStep(m, n, i, n.servers[i]);
    }
  }

  lemma GuardGranted(m: Manager, n: Manager, t: nat, i: nat)
    requires Orderly(m) && SamePhase(m, n) && i < |m.servers| && t !in m.tasks
    requires !Guarded(m.servers[i].conn) && m.servers[i].maxAttempts > 0
    requires n.tasks == m.tasks[t := Task(i, AwaitLock, None, 0)]
    requires |n.servers| == |m.servers| && Guarded(n.servers[i].conn)
    requires n.servers == m.servers[i := m.servers[i].(conn := n.servers[i].conn)]
    ensures Orderly(n)
  {
    assert AttemptsOk(Task(i, AwaitLock, None, 0), m.servers[i].maxAttempts);
    assert TaskOk(n, t) by { assert ServerOk(m, i); }
    hide AttemptsOk;
    forall u <- m.tasks ensures TaskOk(n, u) && (m.tasks[u].server == i ==> !Guarding(m.tasks[u].pc)) {
      assert TaskOk(m, u);
    }
    forall j | 0 <= j < |n.servers| ensures ServerOk(n, j) { assert ServerOk(m, j); }
    assert ServerOk(m, i);
  }

  lemma LockStep(m: Manager, t: nat)
    requires Orderly(m) && Next(m, TakeLock(t)).Some?
    ensures Orderly(Next(m, TakeLock(t)).value)
  {
    hide Orderly;
    var n := Next(m, TakeLock(t)).value;
    TaskAndServer(m, t);
    RegionStep(m, n, t, n.tasks[t], n.servers[m.tasks[t].server]);
  }

  /** Shutdown reaches a server only when no reconnect is inside it. */
  lemma ShutdownSteps(m: Manager, step: Step)
    requires Orderly(m) && Next(m, step).Some? && (step.StopSlot? || step.TakeClient? || step.CloseTaken? || step.FinishDrain?)
    ensures Orderly(Next(m, step).value)
  {
    hide Orderly;
    var i := if step.StopSlot? then m.stopped else if step.TakeClient? then m.taken else step.server;
    ServerFacts(m, i);
    var n := Next(m, step).value;
    ServerStep(m, n, i, n.servers[i]);
  }

  lemma FlagSteps(m: Manager, step: Step)
    requires Orderly(m) && Next(m, step).Some? && (step.Cancel? || step.Return?)
    ensures Orderly(Next(m, step).value)
  {
    var n := Next(m, step).value;
    forall t <- n.tasks ensures TaskOk(n, t) { assert TaskOk(m, t); }
    forall i | 0 <= i < |n.servers| ensures ServerOk(n, i) { assert ServerOk(m, i); }
  }

  lemma StepKeepsOrder(m: Manager, step: Step)
    requires Orderly(m) && Next(m, step).Some?
    ensures Orderly(Next(m, step).value)
  {
    hide Orderly;
    match step {
      case CallStarts(_, _) => CallSteps(m, step);
      case CallEnds(_) => CallSteps(m, step);
      case Begin(t, i, r) => BeginStep(m, t, i, r);
      case TakeLock(t) => LockStep(m, t);
      case RecordAttempt(t) => AttemptStep(m, t);
      case Launch(_, _) => LaunchSteps(m, step);
      case Discover(_, _) => LaunchSteps(m, step);
      case Judge(t, verdict) => JudgeStep(m, t, verdict);
      case Discard(t) => DiscardStep(m, t);
      case Complete(_, _) => CompleteSteps(m, step);
      case Store(_) => CompleteSteps(m, step);
      case Cancel => FlagSteps(m, step);
      case StopSlot => ShutdownSteps(m, step);
      case TakeClient => ShutdownSteps(m, step);
      case CloseTaken(_) => ShutdownSteps(m, step);
      case FinishDrain(_) => ShutdownSteps(m, step);
      case Return => FlagSteps(m, step);
      case Enter(_) => CheckSteps(m, step);
      case Recheck(_) => CheckSteps(m, step);
      case BackOff(_) => CheckSteps(m, step);
      case _ => EarlySteps(m, step);
    }
  }

  // ------------------------------------------------------------------ ownership

  /** Where a running client can be. */
  datatype Place = InSlot(server: nat) | InTask(task: nat) | InShutdown(server: nat)

  function Held(m: Manager, p: Place): Option<nat> {
    match p
    case InSlot(i) => if i < |m.servers| then m.servers[i].client else None
    case InTask(t) => if t in m.tasks then m.tasks[t].client else None
    case InShutdown(i) => if i < |m.servers| then m.servers[i].dying else None
  }

  ghost predicate Running(m: Manager, c: nat) {
    exists p :: Held(m, p) == Some(c)
  }

  /** Every client ever started is held in exactly one place or was shut down exactly once. */
  ghost predicate Owned(m: Manager) {
    && (forall p, q :: Held(m, p).Some? && Held(m, p) == Held(m, q) ==> p == q)
    && (forall p :: Held(m, p).Some? ==> Held(m, p).value in m.started && m.closed[Held(m, p).value] == 0)
    && (forall c <- m.started :: m.closed[c] == 1 || (m.closed[c] == 0 && Running(m, c)))
    && (forall c <- m.closed :: c in m.started)
  }

  ghost predicate SameHolders(m: Manager, n: Manager) {
    n.started == m.started && n.closed == m.closed && forall p :: Held(n, p) == Held(m, p)
  }

  lemma Unmoved(m: Manager, n: Manager)
    requires Owned(m) && SameHolders(m, n)
    ensures Owned(n)
  {
    forall c <- n.started ensures n.closed[c] == 1 || (n.closed[c] == 0 && Running(n, c)) {
      if Running(m, c) {
        var p :| Held(m, p) == Some(c);
        assert Held(n, p) == Some(c);
      }
    }
  }

  lemma Moved(m: Manager, n: Manager, from: Place, to: Place)
    requires Owned(m) && from != to && Held(m, to).None? && Held(n, from).None? && Held(n, to) == Held(m, from)
    requires forall p :: p != from && p != to ==> Held(n, p) == Held(m, p)
    requires n.started == m.started && n.closed == m.closed
    ensures Owned(n)
  {
    forall p | Held(n, p).Some? ensures exists q :: Held(m, q) == Held(n, p) && (p == to <==> q == from) {
      assert Held(m, if p == to then from else p) == Held(n, p);
    }
    forall c <- n.started ensures n.closed[c] == 1 || (n.closed[c] == 0 && Running(n, c)) {
      if Running(m, c) {
        var p :| Held(m, p) == Some(c);
        assert Held(n, if p == from then to else p) == Some(c);
      }
    }
  }

  lemma ClosedAt(m: Manager, n: Manager, at: Place)
    requires Owned(m) && Held(n, at).None? && n.started == m.started
    requires n.closed == if Held(m, at).Some? then m.closed + multiset{Held(m, at).value} else m.closed
    requires forall p :: p != at ==> Held(n, p) == Held(m, p)
    ensures Owned(n)
  {
    forall c <- n.started ensures n.closed[c] == 1 || (n.closed[c] == 0 && Running(n, c)) {
      if Held(m, at) != Some(c) && Running(m, c) {
        var p :| Held(m, p) == Some(c);
        assert Held(n, p) == Some(c);
      }
    }
    forall p | Held(n, p).Some? ensures Held(n, p).value in n.started && n.closed[Held(n, p).value] == 0 {
      assert Held(m, p) == Held(n, p);
    }
  }

  lemma StartedAt(m: Manager, n: Manager, at: Place, c: nat)
    requires Owned(m) && Held(m, at).None? && Held(n, at) == Some(c) && c !in m.started
    requires n.started == m.started + {c} && n.closed == m.closed
    requires forall p :: p != at ==> Held(n, p) == Held(m, p)
    ensures Owned(n)
  {
    assert c !in m.closed;
    forall d <- n.started ensures n.closed[d] == 1 || (n.closed[d] == 0 && Running(n, d)) {
      if d == c {
        assert Held(n, at) == Some(d);
      } else if Running(m, d) {
        var p :| Held(m, p) == Some(d);
        assert Held(n, p) == Some(d);
      }
    }
  }

  /** The steps that hand a client over or end it. */
  predicate Hands(m: Manager, step: Step) {
    || step.TakeOld? || step.CloseOld? || (step.Launch? && step.client.Some?)
    || (step.Discover? && !step.ok) || step.Discard? || step.Store? || step.TakeClient? || step.CloseTaken?
  }

  /** Tasks and servers keep their clients. */
  predicate KeepsClients(m: Manager, n: Manager) {
    && n.started == m.started && n.closed == m.closed && |n.servers| == |m.servers|
    && (forall i :: 0 <= i < |m.servers| ==>
          n.servers[i].client == m.servers[i].client && n.servers[i].dying == m.servers[i].dying)
    && (forall t <- m.tasks :: t in n.tasks && n.tasks[t].client == m.tasks[t].client)
    && (forall t <- n.tasks :: t in m.tasks || n.tasks[t].client == None)
  }

  lemma QuietJudging(m: Manager, step: Step)
    requires Orderly(m) && Next(m, step).Some? && !Hands(m, step)
    requires step.Recheck? || step.BackOff? || step.Judge?
    ensures KeepsClients(m, Next(m, step).value)
  {
    hide Orderly;
    TaskAndServer(m, step.task);
  }

  lemma QuietHolder(m: Manager, step: Step)
    requires Orderly(m) && Next(m, step).Some? && !Hands(m, step)
    requires step.Enter? || step.RecordAttempt? || step.Launch? || step.Discover? || step.Complete?
    ensures KeepsClients(m, Next(m, step).value)
  {
    hide Orderly;
    TaskAndServer(m, step.task);
  }

  lemma QuietOutside(m: Manager, step: Step)
    requires Next(m, step).Some?
    requires step.CallStarts? || step.CallEnds? || step.Begin? || step.TakeLock?
    ensures KeepsClients(m, Next(m, step).value)
  {
  }

  lemma QuietShutdown(m: Manager, step: Step)
    requires Next(m, step).Some?
    requires step.Cancel? || step.StopSlot? || step.FinishDrain? || step.Return?
    ensures KeepsClients(m, Next(m, step).value)
  {
  }

  lemma QuietSteps(m: Manager, step: Step)
    requires Orderly(m) && Next(m, step).Some? && !Hands(m, step)
    ensures KeepsClients(m, Next(m, step).value)
  {
    hide Orderly, Next, KeepsClients;
    if step.Recheck? || step.BackOff? || step.Judge? {
      QuietJudging(m, step);
    } else if step.CallStarts? || step.CallEnds? || step.Begin? || step.TakeLock? {
      QuietOutside(m, step);
    } else if step.Cancel? || step.StopSlot? || step.FinishDrain? || step.Return? {
      QuietShutdown(m, step);
    } else {
      QuietHolder(m, step);
    }
  }

  /** Storing finds the slot empty, taking finds the taker empty, and shutdown finds nothing dying. */
  lemma HandingSteps(m: Manager, step: Step)
    requires Orderly(m) && Owned(m) && Next(m, step).Some? && (step.TakeOld? || step.Store? || step.TakeClient?)
    ensures Owned(Next(m, step).value)
  {
    hide Orderly, Owned;
    var n := Next(m, step).value;
    if step.TakeClient? {
      ServerFacts(m, m.taken);
      Moved(m, n, InSlot(m.taken), InShutdown(m.taken));
    } else {
      TaskAndServer(m, step.task);
      var slot := InSlot(m.tasks[step.task].server);
      if step.TakeOld? {
        Moved(m, n, slot, InTask(step.task));
      } else {
        Moved(m, n, InTask(step.task), slot);
      }
    }
  }

  lemma EndingSteps(m: Manager, step: Step)
    requires Orderly(m) && Owned(m) && Next(m, step).Some? && Hands(m, step)
    requires step.CloseOld? || step.Discover? || step.Discard? || step.CloseTaken? || step.Launch?
    ensures Owned(Next(m, step).value)
  {
    hide Orderly, Owned, Next;
    if step.CloseTaken? {
      ShutdownCloses(m, step.server);
    } else if step.Discard? {
      DiscardIs(m, step.task);
      DiscardCloses(m, step.task);
    } else if step.Launch? {
      LaunchStarts(m, step.task, step.client);
    } else {
      TaskCloses(m, step);
    }
  }

  lemma DiscardIs(m: Manager, t: nat)
    requires Next(m, Discard(t)).Some?
    ensures t in m.tasks && m.tasks[t].pc.Discarding? && m.tasks[t].server < |m.servers|
    ensures Next(m, Discard(t)) == Some(Discarded(m, t))
  {
  }

  lemma ShutdownCloses(m: Manager, i: nat)
    requires Owned(m) && Next(m, CloseTaken(i)).Some?
    ensures Owned(Next(m, CloseTaken(i)).value)
  {
    hide Owned;
    ClosedAt(m, Next(m, CloseTaken(i)).value, InShutdown(i));
  }

  lemma TaskCloses(m: Manager, step: Step)
    requires Orderly(m) && Owned(m) && Next(m, step).Some? && (step.CloseOld? || (step.Discover? && !step.ok))
    ensures Owned(Next(m, step).value)
  {
    hide Orderly, Owned;
    ClosedAt(m, Next(m, step).value, InTask(step.task));
  }

  lemma LaunchStarts(m: Manager, t: nat, c: Option<nat>)
    requires Orderly(m) && Owned(m) && Next(m, Launch(t, c)).Some? && c.Some?
    ensures Owned(Next(m, Launch(t, c)).value)
  {
    hide Orderly, Owned;
    TaskAndServer(m, t);
    StartedAt(m, Next(m, Launch(t, c)).value, InTask(t), c.value);
  }

  lemma DiscardCloses(m: Manager, t: nat)
    requires Orderly(m) && Owned(m) && t in m.tasks && m.tasks[t].pc.Discarding? && m.tasks[t].server < |m.servers|
    ensures Owned(Discarded(m, t))
  {
    hide Orderly, Owned;
    TaskAndServer(m, t);
    ClosedAt(m, Discarded(m, t), InTask(t));
  }

  lemma StepKeepsOwnership(m: Manager, step: Step)
    requires Orderly(m) && Owned(m) && Next(m, step).Some?
    ensures Owned(Next(m, step).value)
  {
    hide Orderly, Owned, Next;
    if !Hands(m, step) {
      QuietSteps(m, step);
      assert SameHolders(m, Next(m, step).value);
      Unmoved(m, Next(m, step).value);
    } else if step.TakeOld? || step.Store? || step.TakeClient? {
      HandingSteps(m, step);
    } else {
      EndingSteps(m, step);
    }
  }

  // ---------------------------------------------------------------- whole runs

  /** A manager as bootstrap leaves it: each server ready with its own client, or unhealthy without one. */
  ghost predicate Initial(m: Manager) {
    && (forall i :: 0 <= i < |m.servers| ==>
          var s := m.servers[i];
          && s.lock.Free? && s.closing.Untouched? && s.dying == None
          && (s.client.Some? ==> s.client.value in m.started))
    && (forall i, j :: 0 <= i < j < |m.servers| && m.servers[i].client.Some? ==> m.servers[i].client != m.servers[j].client)
    && (forall c <- m.started :: exists i :: 0 <= i < |m.servers| && m.servers[i].client == Some(c))
    && m.tasks == map[] && !m.cancelled && m.stopped == 0 && m.taken == 0 && !m.returned
    && m.closed == multiset{} && m.stored == {}
  }

  lemma InitialOk(m: Manager)
    requires Initial(m)
    ensures Orderly(m) && Owned(m)
  {
    forall c <- m.started ensures Running(m, c) {
      var i :| 0 <= i < |m.servers| && m.servers[i].client == Some(c);
      assert Held(m, InSlot(i)) == Some(c);
    }
    forall p, q | Held(m, p).Some? && Held(m, p) == Held(m, q) ensures p == q {
      assert p.InSlot? && q.InSlot?;
    }
  }

  lemma {:induction false} RunKeeps(m: Manager, steps: seq<Step>)
    requires Orderly(m) && Owned(m)
    ensures Orderly(After(m, steps)) && Owned(After(m, steps))
  {
    hide Orderly, Owned, Next;
    if steps != [] {
      var before, step := After(m, steps[..|steps| - 1]), steps[|steps| - 1];
      RunKeeps(m, steps[..|steps| - 1]);
      if Next(before, step).Some? {
        StepKeepsOrder(before, step);
        StepKeepsOwnership(before, step);
      }
    }
  }

  /** In every interleaving each started client has exactly one holder or was shut down exactly once. */
  lemma ClientsHaveOneOwner(m: Manager, steps: seq<Step>, c: nat)
    requires Initial(m) && c in After(m, steps).started
    ensures
      var n := After(m, steps);
      if n.closed[c] == 0 then Running(n, c) && forall p, q :: Held(n, p) == Some(c) == Held(n, q) ==> p == q
      else n.closed[c] == 1 && !Running(n, c)
  {
    InitialOk(m);
    RunKeeps(m, steps);
  }

  /** When shutdown has returned, every client that was ever started has been shut down, exactly once. */
  lemma NothingLeftRunning(m: Manager, steps: seq<Step>, c: nat)
    requires Initial(m) && After(m, steps).returned && c in After(m, steps).started
    ensures After(m, steps).closed[c] == 1
  {
    InitialOk(m);
    RunKeeps(m, steps);
    forall p ensures Held(After(m, steps), p).None? {
      NobodyHolds(After(m, steps), p);
    }
  }

  lemma NobodyHolds(m: Manager, p: Place)
    requires Orderly(m) && m.returned
    ensures Held(m, p).None?
  {
    match p {
      case InTask(t) => if t in m.tasks { TaskAndServer(m, t); }
      case InSlot(i) => if i < |m.servers| { ServerFacts(m, i); }
      case InShutdown(i) => if i < |m.servers| { ServerFacts(m, i); }
    }
  }

  /** Each server has at most one active reconnect guard, and a client is never stored over another. */
  lemma StoreFindsEmptySlot(m: Manager, steps: seq<Step>, t: nat)
    requires Initial(m) && Next(After(m, steps), Store(t)).Some?
    ensures After(m, steps).servers[After(m, steps).tasks[t].server].client == None
    ensures OneGuard(After(m, steps))
  {
    InitialOk(m);
    RunKeeps(m, steps);
    assert TaskOk(After(m, steps), t);
  }
}

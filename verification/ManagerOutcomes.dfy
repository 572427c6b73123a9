/**
 What the manager's operations achieve: a reconnect with a good candidate installs
 it, every other verdict has its own fate, and a shutdown gets through under every
 schedule.
*/
module ManagerOutcomes {
  import opened Basics
  import opened McpManager
  import Slot = ConnectionSlot

  // ------------------------------------------------------------ a good candidate

  /** Three steps install a good candidate: the slot is ready on its handle and the client is not shut down. */
  lemma GoodReconnectSucceeds(m: Manager, t: nat, c: nat, h: nat)
    requires Orderly(m) && Owned(m) && At(m, t, Judging) && m.tasks[t].client == Some(c)
    requires !m.cancelled && Conn(m, t).state.Reconnecting?
    ensures Next(m, Judge(t, Good)).Some?
    ensures
      var m1 := Next(m, Judge(t, Good)).value;
      && Next(m1, Complete(t, h)).Some?
      && var m2 := Next(m1, Complete(t, h)).value;
      && Next(m2, Store(t)).Some?
      && var n, i := Next(m2, Store(t)).value, m.tasks[t].server;
      && n.servers == m.servers[i := m.servers[i].(client := Some(c), lock := Free,
                                  conn := Conn(m, t).(state := Slot.Ready, code := None, connection := Some(h)))]
      && n.tasks == m.tasks[t := m.tasks[t].(pc := Finished, client := None)]
      && n.closed == m.closed && n.closed[c] == 0 && c in n.stored
  {
    assert Held(m, InTask(t)) == Some(c);
    hide Orderly, Owned, Next;
    var i := m.tasks[t].server;
    GoodJudged(m, t);
    var m1 := Next(m, Judge(t, Good)).value;
    GoodCompleted(m1, t, h);
    var m2 := Next(m1, Complete(t, h)).value;
    GoodStored(m2, t, c);
    var n := Next(m2, Store(t)).value;
    Overwritten(m.tasks, t, m1.tasks[t], m2.tasks[t]);
    Overwritten(m.tasks, t, m2.tasks[t], n.tasks[t]);
    assert m2.servers[i] == m.servers[i].(conn := Conn(m, t).(state := Slot.Ready, code := None, connection := Some(h)));
    assert n.servers == m.servers[i := m2.servers[i].(client := Some(c), lock := Free)];
  }

  lemma Overwritten(tasks: map<nat, Task>, t: nat, a: Task, b: Task)
    ensures tasks[t := a][t := b] == tasks[t := b]
  {
  }

  lemma GoodJudged(m: Manager, t: nat)
    requires At(m, t, Judging) && m.tasks[t].client.Some? && !m.cancelled
    ensures Next(m, Judge(t, Good)) == Some(m.(tasks := m.tasks[t := m.tasks[t].(pc := Completing)]))
  {
  }

  lemma GoodCompleted(m: Manager, t: nat, h: nat)
    requires At(m, t, Completing) && Conn(m, t).state.Reconnecting?
    ensures
      var i := m.tasks[t].server;
      Next(m, Complete(t, h)) ==
      Some(m.(tasks := m.tasks[t := m.tasks[t].(pc := Storing)],
              servers := m.servers[i := m.servers[i].(conn := Conn(m, t).(state := Slot.Ready, code := None, connection := Some(h)))]))
  {
  }

  lemma GoodStored(m: Manager, t: nat, c: nat)
    requires At(m, t, Storing) && m.tasks[t].client == Some(c)
    ensures
      var i := m.tasks[t].server;
      Next(m, Store(t)) ==
      Some(m.(tasks := m.tasks[t := m.tasks[t].(pc := Finished, client := None)],
              servers := m.servers[i := m.servers[i].(client := Some(c), lock := Free)], stored := m.stored + {c}))
  {
  }

  // -------------------------------------------------------- a whole reconnect

  /** The server is idle and needs a reconnect, which its policy allows; nobody is inside it. */
  predicate NeedsReconnect(m: Manager, t: nat, i: nat) {
    && i < |m.servers| && t !in m.tasks && !m.cancelled
    && (var s := m.servers[i];
        && s.lock.Free? && s.maxAttempts > 0 && s.conn.inFlight == 0 && s.conn.restarts < Slot.MAX_RESTART_COUNT
        && (s.conn.state.Stale? || s.conn.state.Unhealthy?))
  }

  /** One server and one task of a manager replaced. */
  function With(m: Manager, i: nat, s: Server, t: nat, task: Task): Manager
    requires i < |m.servers|
  {
    m.(servers := m.servers[i := s], tasks := m.tasks[t := task])
  }

  lemma Replaced(m: Manager, i: nat, s: Server, t: nat, task: Task, s': Server, task': Task)
    requires i < |m.servers|
    ensures With(With(m, i, s, t, task), i, s', t, task') == With(m, i, s', t, task')
  {
    Overwritten(m.tasks, t, task, task');
  }

  function Reconnecting(s: Server): Slot.Conn {
    s.conn.(state := Slot.Reconnecting, code := None, connection := None)
  }

  lemma ReconnectBegins(m: Manager, t: nat, i: nat, r: Slot.Report)
    requires NeedsReconnect(m, t, i)
    ensures Next(m, Begin(t, i, r)) ==
              Some(With(m, i, m.servers[i].(conn := Reconnecting(m.servers[i])), t, Task(i, AwaitLock, None, 0)))
  {
  }

  lemma Locks(m: Manager, t: nat, i: nat, s: Server)
    requires i < |m.servers| && s.lock.Free?
    ensures Next(With(m, i, s, t, Task(i, AwaitLock, None, 0)), TakeLock(t)) ==
              Some(With(m, i, s.(lock := HeldBy(t)), t, Task(i, Entered, None, 0)))
  {
    Replaced(m, i, s, t, Task(i, AwaitLock, None, 0), s.(lock := HeldBy(t)), Task(i, Entered, None, 0));
  }

  lemma Enters(m: Manager, t: nat, i: nat, s: Server)
    requires i < |m.servers| && !m.cancelled
    ensures Next(With(m, i, s, t, Task(i, Entered, None, 0)), Enter(t)) == Some(With(m, i, s, t, Task(i, Admitted, None, 0)))
  {
    Overwritten(m.tasks, t, Task(i, Entered, None, 0), Task(i, Admitted, None, 0));
  }

  lemma Empties(m: Manager, t: nat, i: nat, s: Server)
    requires i < |m.servers|
    ensures Next(With(m, i, s, t, Task(i, Admitted, None, 0)), TakeOld(t)) ==
              Some(With(m, i, s.(client := None), t, Task(i, Emptied, s.client, 0)))
  {
    Replaced(m, i, s, t, Task(i, Admitted, None, 0), s.(client := None), Task(i, Emptied, s.client, 0));
  }

  lemma Clears(m: Manager, t: nat, i: nat, s: Server, former: Option<nat>)
    requires i < |m.servers|
    ensures |Close(m, former).servers| == |m.servers|
    ensures Next(With(m, i, s, t, Task(i, Emptied, former, 0)), CloseOld(t)) ==
              Some(With(Close(m, former), i, s, t, Task(i, Cleared, None, 0)))
  {
    Overwritten(m.tasks, t, Task(i, Emptied, former, 0), Task(i, Cleared, None, 0));
  }

  lemma Rechecks(m: Manager, t: nat, i: nat, s: Server)
    requires i < |m.servers| && !m.cancelled
    ensures Next(With(m, i, s, t, Task(i, Cleared, None, 0)), Recheck(t)) == Some(With(m, i, s, t, Task(i, Attempting, None, 0)))
  {
    Overwritten(m.tasks, t, Task(i, Cleared, None, 0), Task(i, Attempting, None, 0));
  }

  lemma Tries(m: Manager, t: nat, i: nat, s: Server)
    requires i < |m.servers| && s.conn.restarts < Slot.MAX_RESTART_COUNT
    ensures Next(With(m, i, s, t, Task(i, Attempting, None, 0)), RecordAttempt(t)) ==
              Some(With(m, i, s.(conn := s.conn.(restarts := s.conn.restarts + 1)), t, Task(i, Launching, None, 1)))
  {
    Replaced(m, i, s, t, Task(i, Attempting, None, 0), s.(conn := s.conn.(restarts := s.conn.restarts + 1)), Task(i, Launching, None, 1));
  }

  /** The steps of a first attempt that finds client `c`. */
  function Attempt(t: nat, i: nat, r: Slot.Report, c: nat): seq<Step> {
    [Begin(t, i, r), TakeLock(t), Enter(t), TakeOld(t), CloseOld(t), Recheck(t), RecordAttempt(t), Launch(t, Some(c)), Discover(t, true)]
  }

  lemma AfterSnoc(m: Manager, steps: seq<Step>, step: Step, before: Manager, n: Manager)
    requires After(m, steps) == before && Next(before, step) == Some(n)
    ensures After(m, steps + [step]) == n
  {
    assert (steps + [step])[..|steps|] == steps;
  }

  lemma AttemptFinds(m: Manager, t: nat, i: nat, r: Slot.Report, c: nat)
    requires NeedsReconnect(m, t, i) && c !in m.started
    ensures
      var s := m.servers[i];
      var held := s.(conn := Reconnecting(s).(restarts := s.conn.restarts + 1), client := None, lock := HeldBy(t));
      After(m, Attempt(t, i, r, c)) ==
      Close(With(m, i, held, t, Task(i, Judging, Some(c), 1)), s.client).(started := m.started + {c})
  {
    hide Next, After, Close;
    var s := m.servers[i];
    var s1 := s.(conn := Reconnecting(s));
    var s2 := s1.(lock := HeldBy(t));
    var s3 := s2.(client := None);
    var s4 := s3.(conn := s3.conn.(restarts := s.conn.restarts + 1));
    var all := Attempt(t, i, r, c);
    var m1 := With(m, i, s1, t, Task(i, AwaitLock, None, 0));
    ReconnectBegins(m, t, i, r);
    StartAt(m);
    AfterSnoc(m, [], all[0], m, m1);
    var m2 := With(m, i, s2, t, Task(i, Entered, None, 0));
    Locks(m, t, i, s1);
    AfterSnoc(m, [] + [all[0]], all[1], m1, m2);
    var m3 := With(m, i, s2, t, Task(i, Admitted, None, 0));
    Enters(m, t, i, s2);
    AfterSnoc(m, [] + [all[0]] + [all[1]], all[2], m2, m3);
    var m4 := With(m, i, s3, t, Task(i, Emptied, s.client, 0));
    Empties(m, t, i, s2);
    AfterSnoc(m, [] + [all[0]] + [all[1]] + [all[2]], all[3], m3, m4);
    var c0 := Close(m, s.client);
    CloseWith(m, i, s3, t, Task(i, Cleared, None, 0), s.client);
    Clears(m, t, i, s3, s.client);
    AfterSnoc(m, [] + [all[0]] + [all[1]] + [all[2]] + [all[3]], all[4], m4, With(c0, i, s3, t, Task(i, Cleared, None, 0)));
    AttemptFrom(m, c0, t, i, s3, s4, c, [] + [all[0]] + [all[1]] + [all[2]] + [all[3]] + [all[4]]);
    CloseWith(m, i, s4, t, Task(i, Judging, Some(c), 1), s.client);
    assert [] + [all[0]] + [all[1]] + [all[2]] + [all[3]] + [all[4]] + [Recheck(t)] + [RecordAttempt(t)] + [Launch(t, Some(c))] + [Discover(t, true)] == all;
  }

  lemma StartAt(m: Manager)
    ensures After(m, []) == m
  {
  }

  lemma CloseWith(m: Manager, i: nat, s: Server, t: nat, task: Task, c: Option<nat>)
    requires i < |m.servers|
    ensures |Close(m, c).servers| == |m.servers| && Close(m, c).started == m.started && Close(m, c).cancelled == m.cancelled
    ensures Close(With(m, i, s, t, task), c) == With(Close(m, c), i, s, t, task)
  {
  }

  lemma AttemptFrom(m: Manager, c0: Manager, t: nat, i: nat, s3: Server, s4: Server, c: nat, done: seq<Step>)
    requires i < |c0.servers| && !c0.cancelled && c !in c0.started && s3.conn.restarts < Slot.MAX_RESTART_COUNT
    requires s4 == s3.(conn := s3.conn.(restarts := s3.conn.restarts + 1))
    requires After(m, done) == With(c0, i, s3, t, Task(i, Cleared, None, 0))
    ensures After(m, done + [Recheck(t)] + [RecordAttempt(t)] + [Launch(t, Some(c))] + [Discover(t, true)]) ==
              With(c0, i, s4, t, Task(i, Judging, Some(c), 1)).(started := c0.started + {c})
  {
    hide Next, After;
    Rechecks(c0, t, i, s3);
    var m6 := With(c0, i, s3, t, Task(i, Attempting, None, 0));
    AfterSnoc(m, done, Recheck(t), With(c0, i, s3, t, Task(i, Cleared, None, 0)), m6);
    Tries(c0, t, i, s3);
    var m7 := With(c0, i, s4, t, Task(i, Launching, None, 1));
    AfterSnoc(m, done + [Recheck(t)], RecordAttempt(t), m6, m7);
    Launches(c0, t, i, s4, c);
    var c1 := c0.(started := c0.started + {c});
    var m8 := With(c1, i, s4, t, Task(i, Discovering, Some(c), 1));
    AfterSnoc(m, done + [Recheck(t)] + [RecordAttempt(t)], Launch(t, Some(c)), m7, m8);
    Discovers(c1, t, i, s4, c);
    AfterSnoc(m, done + [Recheck(t)] + [RecordAttempt(t)] + [Launch(t, Some(c))], Discover(t, true), m8,
              With(c1, i, s4, t, Task(i, Judging, Some(c), 1)));
  }

  lemma Launches(m: Manager, t: nat, i: nat, s: Server, c: nat)
    requires i < |m.servers| && c !in m.started
    ensures
      Next(With(m, i, s, t, Task(i, Launching, None, 1)), Launch(t, Some(c))) ==
      Some(With(m.(started := m.started + {c}), i, s, t, Task(i, Discovering, Some(c), 1)))
  {
    Overwritten(m.tasks, t, Task(i, Launching, None, 1), Task(i, Discovering, Some(c), 1));
  }

  lemma Discovers(m: Manager, t: nat, i: nat, s: Server, c: nat)
    requires i < |m.servers|
    ensures
      Next(With(m, i, s, t, Task(i, Discovering, Some(c), 1)), Discover(t, true)) ==
      Some(With(m, i, s, t, Task(i, Judging, Some(c), 1)))
  {
    Overwritten(m.tasks, t, Task(i, Discovering, Some(c), 1), Task(i, Judging, Some(c), 1));
  }

  lemma {:induction false} AfterAppend(m: Manager, a: seq<Step>, b: seq<Step>)
    ensures After(m, a + b) == After(After(m, a), b)
    decreases |b|
  {
    hide Next;
    if b == [] {
      assert a + b == a;
    } else {
      assert (a + b)[..|a + b| - 1] == a + b[..|b| - 1];
      AfterAppend(m, a, b[..|b| - 1]);
    }
  }

  /**
   A reconnect from the start: the old client is shut down, the new one installed, the
   slot ready on its handle with one more restart, and the lock free again.
  */
  lemma ReconnectSucceeds(m: Manager, t: nat, i: nat, r: Slot.Report, c: nat, h: nat)
    requires Orderly(m) && Owned(m) && NeedsReconnect(m, t, i) && c !in m.started
    ensures
      var s := m.servers[i];
      var n := After(m, Attempt(t, i, r, c) + [Judge(t, Good), Complete(t, h), Store(t)]);
      && n.servers == m.servers[i := s.(client := Some(c), lock := Free,
                                  conn := s.conn.(state := Slot.Ready, code := None, connection := Some(h), restarts := s.conn.restarts + 1))]
      && n.closed == m.closed + (if s.client.Some? then multiset{s.client.value} else multiset{})
      && n.closed[c] == 0 && c in n.started && c in n.stored
  {
    hide Orderly, Owned, Next, After;
    var s := m.servers[i];
    var steps := Attempt(t, i, r, c);
    AttemptFinds(m, t, i, r, c);
    RunKeeps(m, steps);
    var m1 := After(m, steps);
    GoodReconnectSucceeds(m1, t, c, h);
    var m2 := Next(m1, Judge(t, Good)).value;
    var m3 := Next(m2, Complete(t, h)).value;
    var n := Next(m3, Store(t)).value;
    ThreeMore(m1, Judge(t, Good), Complete(t, h), Store(t), m2, m3, n);
    GoodJudged(m1, t);
    GoodCompleted(m2, t, h);
    GoodStored(m3, t, c);
    AfterAppend(m, steps, [Judge(t, Good), Complete(t, h), Store(t)]);
  }

  lemma ThreeMore(m: Manager, a: Step, b: Step, c: Step, m1: Manager, m2: Manager, m3: Manager)
    requires Next(m, a) == Some(m1) && Next(m1, b) == Some(m2) && Next(m2, c) == Some(m3)
    ensures After(m, [a, b, c]) == m3
  {
    hide Next, After;
    StartAt(m);
    AfterSnoc(m, [], a, m, m1);
    AfterSnoc(m, [] + [a], b, m1, m2);
    AfterSnoc(m, [] + [a] + [b], c, m2, m3);
    assert [] + [a] + [b] + [c] == [a, b, c];
  }

  // ---------------------------------------------------------- every other verdict

  /** The reconnect is over: its candidate is shut down, the lock is free, and the slot is `conn`. */
  predicate GaveUp(m: Manager, n: Manager, t: nat, conn: Slot.Conn)
    requires t in m.tasks && m.tasks[t].server < |m.servers|
  {
    var i := m.tasks[t].server;
    && n.servers == m.servers[i := m.servers[i].(conn := conn, lock := Free)]
    && n.tasks == m.tasks[t := m.tasks[t].(pc := Finished, client := None)]
    && n.closed == m.closed + (if m.tasks[t].client.Some? then multiset{m.tasks[t].client.value} else multiset{})
  }

  /** The reconnect waits for its next attempt: its candidate is shut down and the slot still reconnecting. */
  predicate Waits(m: Manager, n: Manager, t: nat)
    requires t in m.tasks
  {
    && n.servers == m.servers && n.tasks == m.tasks[t := m.tasks[t].(pc := BackingOff, client := None)]
    && n.closed == m.closed + (if m.tasks[t].client.Some? then multiset{m.tasks[t].client.value} else multiset{})
  }

  function JudgedAndDiscarded(m: Manager, t: nat, verdict: Verdict): Manager {
    After(m, [Judge(t, verdict), Discard(t)])
  }

  lemma TwoSteps(m: Manager, a: Step, b: Step)
    ensures After(m, [a, b]) ==
              (var n := match Next(m, a) { case None => m case Some(x) => x };
               match Next(n, b) { case None => n case Some(x) => x })
  {
    hide Next;
    assert [a, b][..1] == [a] && [a][..0] == [];
    assert After(m, [a]) == match Next(m, a) { case None => m case Some(x) => x };
  }

  /**
   The fates of the other verdicts.  A drifted snapshot fails the slot at once; a
   missing client or handle is tried again until the last attempt fails the slot; a
   shutdown in between stops it.  The candidate, if any, is always shut down.
  */
  lemma OtherVerdicts(m: Manager, t: nat, verdict: Verdict)
    requires Orderly(m) && At(m, t, Judging) && !verdict.Good? && (verdict.Missing? <==> m.tasks[t].client.None?)
    ensures
      var n := JudgedAndDiscarded(m, t, verdict);
      if m.cancelled then GaveUp(m, n, t, Slot.Shut(Conn(m, t)))
      else
        match verdict
        case Drifted => GaveUp(m, n, t, Slot.Failed(Conn(m, t), Slot.Descriptor))
        case NoHandle(error) =>
          if LastAttempt(m, t) then GaveUp(m, n, t, Slot.Failed(Conn(m, t), error)) else Waits(m, n, t)
        case Missing(error) =>
          if LastAttempt(m, t) then GaveUp(m, n, t, Slot.Failed(Conn(m, t), error)) else Waits(m, n, t)
        case Good => true
  {
    hide Orderly, After;
    TwoSteps(m, Judge(t, verdict), Discard(t));
    var n := JudgedAndDiscarded(m, t, verdict);
    assert m.tasks[t := m.tasks[t]] == m.tasks;
  }

  /** What the slot is after a reconnect that failed: unhealthy with the error, unless it was stopped. */
  lemma FailedSlot(conn: Slot.Conn, error: Slot.Code)
    ensures
      var failed := Slot.Failed(conn, error);
      if conn.state.Stopped? then failed == conn
      else failed.state.Unhealthy? && failed.code == Some(error) && failed.connection == None && failed.restarts == conn.restarts
    ensures Slot.Shut(conn).state.Stopped? && Slot.Shut(conn).connection == None
  {
  }

  /** Waiting leads to another attempt exactly if no shutdown began, and there is always one left. */
  lemma RetryFollows(m: Manager, t: nat)
    requires Orderly(m) && At(m, t, BackingOff)
    ensures Next(m, BackOff(t)).Some?
    ensures !m.cancelled ==> At(Next(m, BackOff(t)).value, t, Attempting) && m.tasks[t].attempt < m.servers[m.tasks[t].server].maxAttempts
    ensures m.cancelled ==> At(Next(m, BackOff(t)).value, t, Finished) && Conn(Next(m, BackOff(t)).value, t).state.Stopped?
  {
    TaskAndServer(m, t);
    hide Orderly;
  }

  // ------------------------------------------------------------- all interleavings

  /** Since its good verdict task `t` keeps client `c`, or has installed it, or the slot was stopped. */
  predicate Promised(m: Manager, t: nat, i: nat, c: nat) {
    && t in m.tasks && m.tasks[t].server == i < |m.servers|
    && (|| ((m.tasks[t].pc.Completing? || m.tasks[t].pc.Storing?) && m.tasks[t].client == Some(c))
        || (m.tasks[t].pc == Discarding(Leave) && m.tasks[t].client == Some(c) && m.servers[i].conn.state.Stopped?)
        || (m.tasks[t].pc.Finished? && (c in m.stored || m.servers[i].conn.state.Stopped?)))
  }

  /** Whose step it is, for the steps of a reconnect. */
  function TaskOf(step: Step): Option<nat> {
    match step
    case TakeLock(t) => Some(t)
    case Enter(t) => Some(t)
    case TakeOld(t) => Some(t)
    case CloseOld(t) => Some(t)
    case Recheck(t) => Some(t)
    case RecordAttempt(t) => Some(t)
    case Launch(t, _) => Some(t)
    case Discover(t, _) => Some(t)
    case Judge(t, _) => Some(t)
    case Discard(t) => Some(t)
    case BackOff(t) => Some(t)
    case Complete(t, _) => Some(t)
    case Store(t) => Some(t)
    case _ => None
  }

  /** A task's own step changes the task, its server and the client records, and ranks lower during a shutdown. */
  predicate TaskShape(m: Manager, n: Manager, t: nat) {
    && t in m.tasks && m.tasks[t].server < |m.servers| && t in n.tasks && n.tasks == m.tasks[t := n.tasks[t]]
    && n.tasks[t].server == m.tasks[t].server && |n.servers| == |m.servers|
    && (var i := m.tasks[t].server;
        && n.servers == m.servers[i := n.servers[i]] && n.servers[i].closing == m.servers[i].closing
        && (m.servers[i].conn.state.Stopped? ==> n.servers[i].conn.state.Stopped?))
    && n.stopped == m.stopped && n.returned == m.returned && n.cancelled == m.cancelled && m.stored <= n.stored
    && (m.cancelled ==> Rank(n.tasks[t].pc) < Rank(m.tasks[t].pc))
  }

  lemma EnteringShape(m: Manager, step: Step, t: nat)
    requires Next(m, step).Some? && TaskOf(step) == Some(t) && (step.TakeLock? || step.Enter? || step.TakeOld? || step.CloseOld?)
    ensures TaskShape(m, Next(m, step).value, t)
  {
    assert m.servers == m.servers[m.tasks[t].server := m.servers[m.tasks[t].server]];
  }

  lemma CountingShape(m: Manager, step: Step, t: nat)
    requires Next(m, step).Some? && TaskOf(step) == Some(t) && (step.Recheck? || step.RecordAttempt?)
    ensures TaskShape(m, Next(m, step).value, t)
  {
    assert m.servers == m.servers[m.tasks[t].server := m.servers[m.tasks[t].server]];
  }

  lemma TryingShape(m: Manager, step: Step, t: nat)
    requires Next(m, step).Some? && TaskOf(step) == Some(t) && (step.Launch? || step.Discover?)
    ensures TaskShape(m, Next(m, step).value, t)
  {
    hide Judged, Discarded, Left;
    SameServers(m, m.tasks[t].server);
    assert Next(m, step).value.servers == m.servers;
  }

  lemma JudgingShape(m: Manager, step: Step, t: nat)
    requires Next(m, step).Some? && TaskOf(step) == Some(t) && (step.Judge? || step.BackOff?)
    ensures TaskShape(m, Next(m, step).value, t)
  {
    assert m.servers == m.servers[m.tasks[t].server := m.servers[m.tasks[t].server]];
  }

  lemma SameServers(m: Manager, i: nat)
    requires i < |m.servers|
    ensures m.servers == m.servers[i := m.servers[i]]
  {
  }

  lemma DiscardShape(m: Manager, t: nat)
    requires Next(m, Discard(t)).Some?
    ensures TaskShape(m, Next(m, Discard(t)).value, t)
  {
    DiscardIs(m, t);
    hide Next;
    SameServers(m, m.tasks[t].server);
    var n, i := Discarded(m, t), m.tasks[t].server;
    match m.tasks[t].pc.after {
      case Retry => assert n.servers == m.servers;
      case _ => assert n.servers == m.servers[i := n.servers[i]];
    }
  }

  lemma EndingShape(m: Manager, step: Step, t: nat)
    requires Next(m, step).Some? && TaskOf(step) == Some(t) && (step.Complete? || step.Store?)
    ensures TaskShape(m, Next(m, step).value, t)
  {
    assert m.servers == m.servers[m.tasks[t].server := m.servers[m.tasks[t].server]];
  }

  lemma OwnShape(m: Manager, step: Step, t: nat)
    requires Next(m, step).Some? && TaskOf(step) == Some(t)
    ensures TaskShape(m, Next(m, step).value, t)
  {
    hide Next, TaskShape;
    if step.TakeLock? || step.Enter? || step.TakeOld? || step.CloseOld? {
      EnteringShape(m, step, t);
    } else if step.Recheck? || step.RecordAttempt? {
      CountingShape(m, step, t);
    } else if step.Launch? || step.Discover? {
      TryingShape(m, step, t);
    } else if step.Judge? || step.BackOff? {
      JudgingShape(m, step, t);
    } else if step.Discard? {
      DiscardShape(m, t);
    } else {
      EndingShape(m, step, t);
    }
  }

  /** Every task is as it was, and a stopped slot is still stopped. */
  predicate OutsideOf(m: Manager, n: Manager, i: nat)
    requires i < |m.servers|
  {
    && |n.servers| == |m.servers| && n.stored == m.stored && (forall t <- m.tasks :: t in n.tasks && n.tasks[t] == m.tasks[t])
    && (m.servers[i].conn.state.Stopped? ==> n.servers[i].conn.state.Stopped?)
  }

  lemma CallerShape(m: Manager, step: Step, i: nat)
    requires Next(m, step).Some? && i < |m.servers| && (step.CallStarts? || step.CallEnds? || step.Begin?)
    ensures OutsideOf(m, Next(m, step).value, i)
  {
  }

  lemma ShutdownShape(m: Manager, step: Step, i: nat)
    requires Next(m, step).Some? && i < |m.servers|
    requires step.Cancel? || step.StopSlot? || step.TakeClient? || step.CloseTaken? || step.FinishDrain? || step.Return?
    ensures OutsideOf(m, Next(m, step).value, i)
  {
  }

  /** Calls, new reconnects and shutdown leave every task as it is and stop slots only for good. */
  lemma OutsideShape(m: Manager, step: Step, i: nat)
    requires Next(m, step).Some? && i < |m.servers| && TaskOf(step).None?
    ensures OutsideOf(m, Next(m, step).value, i)
  {
    hide Next, OutsideOf;
    if step.CallStarts? || step.CallEnds? || step.Begin? {
      CallerShape(m, step, i);
    } else {
      ShutdownShape(m, step, i);
    }
  }

  /** No step of anybody else touches a task. */
  lemma OthersKeepTask(m: Manager, step: Step, t: nat)
    requires t in m.tasks && m.tasks[t].server < |m.servers| && TaskOf(step) != Some(t) && Next(m, step).Some?
    ensures t in Next(m, step).value.tasks && Next(m, step).value.tasks[t] == m.tasks[t]
  {
    hide Next;
    if TaskOf(step).Some? {
      OwnShape(m, step, TaskOf(step).value);
    } else {
      OutsideShape(m, step, m.tasks[t].server);
    }
  }

  /** A stopped slot stays stopped and nothing is taken off the record. */
  lemma StopsStay(m: Manager, step: Step, i: nat)
    requires Next(m, step).Some? && i < |m.servers|
    ensures |Next(m, step).value.servers| == |m.servers| && m.stored <= Next(m, step).value.stored
    ensures m.servers[i].conn.state.Stopped? ==> Next(m, step).value.servers[i].conn.state.Stopped?
  {
    hide Next;
    if TaskOf(step).Some? {
      OwnShape(m, step, TaskOf(step).value);
    } else {
      OutsideShape(m, step, i);
    }
  }

  lemma PromiseStep(m: Manager, step: Step, t: nat, i: nat, c: nat)
    requires Orderly(m) && Promised(m, t, i, c) && Next(m, step).Some?
    ensures Promised(Next(m, step).value, t, i, c)
  {
    TaskAndServer(m, t);
    hide Orderly;
    StopsStay(m, step, i);
    if TaskOf(step) == Some(t) {
      PromiseOwn(m, step, t, i, c);
    } else {
      hide Next;
      OthersKeepTask(m, step, t);
    }
  }

  lemma PromiseOwn(m: Manager, step: Step, t: nat, i: nat, c: nat)
    requires Promised(m, t, i, c) && TaskOk(m, t) && Next(m, step).Some? && TaskOf(step) == Some(t)
    ensures Promised(Next(m, step).value, t, i, c)
  {
    match step {
      case Complete(_, _) =>
      case Store(_) =>
      case Discard(_) =>
      case _ => assert false;
    }
  }

  lemma {:induction false} PromiseKept(m: Manager, steps: seq<Step>, t: nat, i: nat, c: nat)
    requires Orderly(m) && Owned(m) && Promised(m, t, i, c)
    ensures Promised(After(m, steps), t, i, c)
  {
    hide Orderly, Owned, Next, Promised;
    if steps != [] {
      var front, step := steps[..|steps| - 1], steps[|steps| - 1];
      PromiseKept(m, front, t, i, c);
      RunKeeps(m, front);
      if Next(After(m, front), step).Some? {
        PromiseStep(After(m, front), step, t, i, c);
      }
    }
  }

  /** In every interleaving a client is shut down after its good verdict only once it was installed or its slot stopped. */
  lemma GoodCandidateKept(m: Manager, t: nat, c: nat, steps: seq<Step>)
    requires Orderly(m) && Owned(m) && At(m, t, Judging) && m.tasks[t].client == Some(c) && !m.cancelled
    ensures Next(m, Judge(t, Good)).Some?
    ensures
      var n, i := After(Next(m, Judge(t, Good)).value, steps), m.tasks[t].server;
      && i < |n.servers| && (n.closed[c] > 0 ==> c in n.stored || n.servers[i].conn.state.Stopped?)
  {
    hide Orderly, Owned, Next, After;
    var i := m.tasks[t].server;
    GoodJudged(m, t);
    var m1 := Next(m, Judge(t, Good)).value;
    assert Promised(m1, t, i, c);
    StepKeepsOrder(m, Judge(t, Good));
    StepKeepsOwnership(m, Judge(t, Good));
    PromiseKept(m1, steps, t, i, c);
    RunKeeps(m1, steps);
    var n := After(m1, steps);
    if n.tasks[t].client == Some(c) {
      HeldNotClosed(n, t, c);
    }
  }

  lemma HeldNotClosed(m: Manager, t: nat, c: nat)
    requires Owned(m) && t in m.tasks && m.tasks[t].client == Some(c)
    ensures m.closed[c] == 0
  {
    assert Held(m, InTask(t)) == Some(c);
  }

  // -------------------------------------------------------------------- shutdown

  /** How many steps a reconnect can still take once a shutdown has begun. */
  function Rank(pc: Pc): nat {
    match pc
    case AwaitLock => 12
    case Entered => 11
    case Admitted => 10
    case Emptied => 9
    case Cleared => 8
    case Attempting => 7
    case Launching => 6
    case Discovering => 5
    case Judging => 4
    case Completing => 4
    case Discarding(_) => 3
    case BackingOff => 2
    case Storing => 1
    case Finished => 0
  }

  ghost function TaskWork(tasks: map<nat, Task>): nat {
    if tasks == map[] then 0
    else
      var t :| t in tasks;
      Rank(tasks[t].pc) + TaskWork(tasks - {t})
  }

  lemma {:induction false} TaskWorkWithout(tasks: map<nat, Task>, t: nat)
    requires t in tasks
    ensures TaskWork(tasks) == Rank(tasks[t].pc) + TaskWork(tasks - {t})
    decreases tasks
  {
    var u :| u in tasks && TaskWork(tasks) == Rank(tasks[u].pc) + TaskWork(tasks - {u});
    if u != t {
      TaskWorkWithout(tasks - {u}, t);
      TaskWorkWithout(tasks - {t}, u);
      assert tasks - {u} - {t} == tasks - {t} - {u};
    }
  }

  lemma TaskWorkUpdate(tasks: map<nat, Task>, t: nat, task: Task)
    requires t in tasks
    ensures TaskWork(tasks[t := task]) + Rank(tasks[t].pc) == TaskWork(tasks) + Rank(task.pc)
  {
    TaskWorkWithout(tasks, t);
    TaskWorkWithout(tasks[t := task], t);
    assert tasks[t := task] - {t} == tasks - {t};
  }

  lemma TaskWorkAdd(tasks: map<nat, Task>, t: nat, task: Task)
    requires t !in tasks
    ensures TaskWork(tasks[t := task]) == TaskWork(tasks) + Rank(task.pc)
  {
    TaskWorkWithout(tasks[t := task], t);
    assert tasks[t := task] - {t} == tasks;
  }

  function ClosingRank(c: Closing): nat {
    match c
    case Untouched => 3
    case Shutting => 2
    case Draining => 1
    case Drained => 0
  }

  function ServerWork(servers: seq<Server>): nat {
    if servers == [] then 0 else ServerWork(servers[..|servers| - 1]) + ClosingRank(servers[|servers| - 1].closing)
  }

  lemma {:induction false} ServerWorkUpdate(servers: seq<Server>, i: nat, s: Server)
    requires i < |servers|
    ensures ServerWork(servers[i := s]) + ClosingRank(servers[i].closing) == ServerWork(servers) + ClosingRank(s.closing)
    decreases |servers|
  {
    var n := |servers| - 1;
    if i == n {
      assert servers[i := s][..n] == servers[..n];
    } else {
      assert servers[i := s][..n] == servers[..n][i := s];
      ServerWorkUpdate(servers[..n], i, s);
    }
  }

  ghost function Work(m: Manager): int {
    TaskWork(m.tasks) + ServerWork(m.servers) + (|m.servers| - m.stopped) + if m.returned then 0 else 1
  }

  /** Calls, and new reconnects, are up to others; everything else is the manager's own work. */
  predicate OwnStep(step: Step) {
    !step.CallStarts? && !step.CallEnds? && !step.Begin?
  }

  /** A step of a task or of shutdown moves exactly one of them on. */
  predicate Moves(m: Manager, n: Manager, step: Step, t: nat, i: nat) {
    && |n.servers| == |m.servers|
    && (|| (t in m.tasks && t in n.tasks && n.tasks == m.tasks[t := n.tasks[t]] && Rank(n.tasks[t].pc) < Rank(m.tasks[t].pc)
            && n.stopped == m.stopped && n.returned == m.returned
            && i < |m.servers| && n.servers == m.servers[i := n.servers[i]] && n.servers[i].closing == m.servers[i].closing)
        || (n.tasks == m.tasks && i < |m.servers| && n.servers == m.servers[i := n.servers[i]]
            && n.servers[i].closing == m.servers[i].closing && n.stopped == m.stopped + 1 && n.returned == m.returned)
        || (n.tasks == m.tasks && i < |m.servers| && n.servers == m.servers[i := n.servers[i]]
            && ClosingRank(n.servers[i].closing) < ClosingRank(m.servers[i].closing) && n.stopped == m.stopped && n.returned == m.returned)
        || (n.tasks == m.tasks && n.servers == m.servers && n.stopped == m.stopped && !m.returned && n.returned))
  }

  lemma MovesLessWork(m: Manager, n: Manager, step: Step, t: nat, i: nat)
    requires Moves(m, n, step, t, i)
    ensures Work(n) < Work(m)
  {
    hide TaskWork, ServerWork;
    if i < |m.servers| && n.servers == m.servers[i := n.servers[i]] {
      ServerWorkUpdate(m.servers, i, n.servers[i]);
    }
    if t in m.tasks && t in n.tasks && n.tasks == m.tasks[t := n.tasks[t]] {
      TaskWorkUpdate(m.tasks, t, n.tasks[t]);
    }
  }

  lemma TaskMoves(m: Manager, step: Step, t: nat)
    requires m.cancelled && Next(m, step).Some? && TaskOf(step) == Some(t)
    ensures t in m.tasks && Moves(m, Next(m, step).value, step, t, m.tasks[t].server)
  {
    hide Next;
    OwnShape(m, step, t);
  }

  lemma ShutdownMoves(m: Manager, step: Step)
    requires Orderly(m) && m.cancelled && !m.returned && Next(m, step).Some?
    requires step.StopSlot? || step.TakeClient? || step.CloseTaken? || step.FinishDrain? || step.Return?
    ensures exists i: nat :: Moves(m, Next(m, step).value, step, 0, i)
  {
    var i := if step.StopSlot? then m.stopped else if step.TakeClient? then m.taken
             else if step.CloseTaken? || step.FinishDrain? then step.server else 0;
    if i < |m.servers| {
      ServerFacts(m, i);
    }
    assert Moves(m, Next(m, step).value, step, 0, i);
  }

  /** Once a shutdown has begun, every step of its own work is progress, and calls undo none. */
  lemma ShutdownProgress(m: Manager, step: Step)
    requires Orderly(m) && m.cancelled && Next(m, step).Some?
    ensures Next(m, step).value.cancelled && (m.returned ==> Next(m, step).value.returned)
    ensures OwnStep(step) && !m.returned ==> Work(Next(m, step).value) < Work(m)
    ensures step.CallStarts? || step.CallEnds? ==> Work(Next(m, step).value) == Work(m)
    ensures step.Begin? ==> Work(Next(m, step).value) <= Work(m) + 12
  {
    var n := Next(m, step).value;
    StepFlags(m, step);
    hide Orderly, TaskWork, ServerWork;
    if step.CallStarts? || step.CallEnds? || step.Begin? {
      ServerWorkUpdate(m.servers, step.server, n.servers[step.server]);
      if step.Begin? && step.task in n.tasks {
        TaskWorkAdd(m.tasks, step.task, n.tasks[step.task]);
      }
    } else if !m.returned {
      hide Next, Work, Moves;
      OwnMoves(m, step);
      var t: nat, i: nat :| Moves(m, n, step, t, i);
      MovesLessWork(m, n, step, t, i);
    }
  }

  lemma StepFlags(m: Manager, step: Step)
    requires Next(m, step).Some? && m.cancelled
    ensures Next(m, step).value.cancelled && (m.returned ==> Next(m, step).value.returned)
  {
  }

  lemma OwnMoves(m: Manager, step: Step)
    requires Orderly(m) && m.cancelled && !m.returned && Next(m, step).Some? && OwnStep(step)
    ensures exists t: nat, i: nat :: Moves(m, Next(m, step).value, step, t, i)
  {
    if step.StopSlot? || step.TakeClient? || step.CloseTaken? || step.FinishDrain? || step.Return? {
      hide Orderly, Next, Moves;
      ShutdownMoves(m, step);
    } else {
      assert !step.Cancel?;
      hide Orderly, Next, Moves;
      TaskMoves(m, step, step.task);
    }
  }

  // ------------------------------------------------------------- never stuck

  /** What a task inside the lock does next. */
  function NextOf(m: Manager, t: nat): Step
    requires t in m.tasks
  {
    match m.tasks[t].pc
    case AwaitLock => TakeLock(t)
    case Entered => Enter(t)
    case Admitted => TakeOld(t)
    case Emptied => CloseOld(t)
    case Cleared => Recheck(t)
    case Attempting => RecordAttempt(t)
    case Launching => Launch(t, None)
    case Discovering => Discover(t, true)
    case Judging => Judge(t, if m.tasks[t].client.None? then Missing(Slot.Unavailable) else Good)
    case Discarding(_) => Discard(t)
    case BackingOff => BackOff(t)
    case Completing => Complete(t, 0)
    case Storing => Store(t)
    case Finished => Cancel
  }

  lemma HolderMoves(m: Manager, t: nat)
    requires t in m.tasks && m.tasks[t].server < |m.servers| && InRegion(m.tasks[t].pc)
    ensures Next(m, NextOf(m, t)).Some? && OwnStep(NextOf(m, t))
  {
  }

  /** A shutdown that has not returned always has a step of its own to take. */
  lemma ShutdownNeverStuck(m: Manager)
    requires Orderly(m) && m.cancelled && !m.returned
    ensures exists step :: OwnStep(step) && Next(m, step).Some?
  {
    if m.stopped < |m.servers| {
      assert Next(m, StopSlot).Some? && OwnStep(StopSlot);
    } else if m.taken < |m.servers| {
      ServerFacts(m, m.taken);
      var lock := m.servers[m.taken].lock;
      if lock.Free? {
        assert Next(m, TakeClient).Some? && OwnStep(TakeClient);
      } else {
        TaskAndServer(m, lock.task);
        HolderMoves(m, lock.task);
      }
    } else if i :| 0 <= i < |m.servers| && !m.servers[i].closing.Drained? {
      ServerFacts(m, i);
      var step := if m.servers[i].closing.Shutting? then CloseTaken(i) else FinishDrain(i);
      assert Next(m, step).Some? && OwnStep(step);
    } else {
      assert Next(m, Return).Some? && OwnStep(Return);
    }
  }

  /** The manager's own steps of a run, as long as shutdown has not returned. */
  ghost function OwnSteps(m: Manager, steps: seq<Step>): nat {
    if steps == [] then 0
    else
      var before, step := After(m, steps[..|steps| - 1]), steps[|steps| - 1];
      OwnSteps(m, steps[..|steps| - 1]) + if OwnStep(step) && !before.returned && Next(before, step).Some? then 1 else 0
  }

  function Begins(steps: seq<Step>): nat {
    if steps == [] then 0 else Begins(steps[..|steps| - 1]) + if steps[|steps| - 1].Begin? then 1 else 0
  }

  lemma {:induction false} ShutdownAdvances(m: Manager, steps: seq<Step>)
    requires Orderly(m) && Owned(m) && m.cancelled
    ensures After(m, steps).cancelled
    ensures After(m, steps).returned || Work(After(m, steps)) + OwnSteps(m, steps) <= Work(m) + 12 * Begins(steps)
  {
    if steps != [] {
      hide Orderly, Owned, Next, Work;
      var front, step := steps[..|steps| - 1], steps[|steps| - 1];
      ShutdownAdvances(m, front);
      RunKeeps(m, front);
      if Next(After(m, front), step).Some? {
        ShutdownProgress(After(m, front), step);
      }
    }
  }

  lemma WorkLeft(m: Manager)
    requires Orderly(m) && !m.returned
    ensures Work(m) >= 1
  {
    assert Progressed(m);
  }

  /** Under every schedule a shutdown has returned once its own steps outnumber the work there was. */
  lemma EveryScheduleShutsDown(m: Manager, steps: seq<Step>)
    requires Orderly(m) && Owned(m) && m.cancelled && OwnSteps(m, steps) >= Work(m) + 12 * Begins(steps)
    ensures After(m, steps).returned
  {
    ShutdownAdvances(m, steps);
    RunKeeps(m, steps);
    if !After(m, steps).returned {
      WorkLeft(After(m, steps));
    }
  }

  /** The slots shutdown has been to are stopped. */
  predicate SlotsStopped(m: Manager) {
    m.stopped <= |m.servers| && forall i :: 0 <= i < m.stopped ==> m.servers[i].conn.state.Stopped?
  }

  lemma StopSlotStops(m: Manager)
    requires Next(m, StopSlot).Some?
    ensures
      var n := Next(m, StopSlot).value;
      n.stopped == m.stopped + 1 <= |n.servers| && n.servers[m.stopped].conn.state.Stopped?
  {
  }

  lemma OnlyStopSlotCounts(m: Manager, step: Step)
    requires Next(m, step).Some? && !step.StopSlot?
    ensures Next(m, step).value.stopped == m.stopped
  {
  }

  lemma {:induction false} RunStopsSlots(m: Manager, steps: seq<Step>)
    requires SlotsStopped(m)
    ensures SlotsStopped(After(m, steps))
  {
    if steps != [] {
      hide Next;
      var front, step := steps[..|steps| - 1], steps[|steps| - 1];
      RunStopsSlots(m, front);
      var before := After(m, front);
      if Next(before, step).Some? {
        var n := Next(before, step).value;
        if step.StopSlot? {
          StopSlotStops(before);
        } else {
          OnlyStopSlotCounts(before, step);
        }
        forall i | 0 <= i < before.stopped ensures i < |n.servers| && n.servers[i].conn.state.Stopped? {
          StopsStay(before, step, i);
        }
        if before.servers != [] {
          StopsStay(before, step, 0);
        }
      }
    }
  }

  /** When shutdown has returned, every slot is stopped, so no call starts and no reconnect begins any more. */
  lemma ShutdownStopsAll(m: Manager, steps: seq<Step>, i: nat, r: Slot.Report)
    requires Initial(m) && After(m, steps).returned && i < |After(m, steps).servers|
    ensures
      var conn := After(m, steps).servers[i].conn;
      conn.state.Stopped? && Slot.Acquired(conn, r).1 == Some(Slot.Unavailable) && !Slot.Begun(conn, r).1
  {
    InitialOk(m);
    RunKeeps(m, steps);
    RunStopsSlots(m, steps);
    assert Progressed(After(m, steps));
  }
}

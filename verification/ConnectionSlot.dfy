/**
 One MCP server's connection slot: lock-protected state shared by call leases, at
 most one reconnect guard, shutdown, and the waiter that wants the slot drained.
 Each function is one critical section; `Next` interleaves them arbitrarily.
*/
module ConnectionSlot {
  import opened Basics

  const MAX_RESTART_COUNT: nat := 1024

  datatype ServerState = Configured | Starting | Ready | Stale | Unhealthy | Reconnecting | Stopped

  /** The lifecycle table. */
  predicate CanTransition(a: ServerState, b: ServerState) {
    match a
    case Configured => b.Starting? || b.Stopped?
    case Starting => b.Ready? || b.Unhealthy? || b.Stopped?
    case Reconnecting => b.Ready? || b.Unhealthy? || b.Stopped?
    case Ready => b.Stale? || b.Unhealthy? || b.Stopped?
    case Stale => b.Reconnecting? || b.Stopped?
    case Unhealthy => b.Reconnecting? || b.Stopped?
    case Stopped => false
  }

  datatype Code = Cancellation | Unavailable | StaleCatalog | OutputBound | Descriptor | Other(code: nat)

  /** What the transport reports about the current connection. */
  datatype Report = Report(failure: Option<Code>, stale: bool)

  datatype Conn = Conn(state: ServerState, code: Option<Code>, connection: Option<nat>, inFlight: nat, restarts: nat)

  function Synchronized(c: Conn, r: Report): Conn {
    if !c.state.Ready? then c
    else if c.connection.None? then c.(state := Unhealthy, code := Some(Unavailable))
    else if r.failure.Some? then c.(state := Unhealthy, code := r.failure)
    else if r.stale then c.(state := Stale, code := Some(StaleCatalog))
    else c
  }

  /** Whether a call may start now, and the slot afterwards. */
  function Acquired(c: Conn, r: Report): (Conn, Option<Code>) {
    var s := Synchronized(c, r);
    if !s.state.Ready? then (s, Some(if s.state.Stale? then StaleCatalog else Unavailable))
    else if s.connection.None? then (s, Some(Unavailable))
    else if s.inFlight == USIZE_MAX then (s, Some(OutputBound))
    else (s.(inFlight := s.inFlight + 1), None)
  }

  function SaturatingPred(n: nat): nat {
    if n == 0 then 0 else n - 1
  }

  function Released(c: Conn): Conn {
    c.(inFlight := SaturatingPred(c.inFlight))
  }

  /** Whether a reconnect guard is handed out, and the slot afterwards. */
  function Begun(c: Conn, r: Report): (Conn, bool) {
    var s := Synchronized(c, r);
    if s.inFlight != 0 || !(s.state.Stale? || s.state.Unhealthy?) then (s, false)
    else (s.(state := Reconnecting, code := None, connection := None), true)
  }

  function Attempted(c: Conn): (Conn, bool) {
    if c.restarts >= MAX_RESTART_COUNT then (c, false) else (c.(restarts := c.restarts + 1), true)
  }

  function Completed(c: Conn, handle: nat): (Conn, bool) {
    if !c.state.Reconnecting? then (c, false)
    else (c.(state := Ready, code := None, connection := Some(handle)), true)
  }

  function Failed(c: Conn, code: Code): Conn {
    if c.state.Stopped? then c else c.(state := Unhealthy, code := Some(code), connection := None)
  }

  function Shut(c: Conn): Conn {
    c.(state := Stopped, code := None, connection := None)
  }

  /** `McpServerHealth::new` refuses restart counts above the projection bound. */
  predicate HealthOk(c: Conn) {
    c.restarts <= MAX_RESTART_COUNT
  }

  // ---------------------------------------------------------------- the object

  /** The slot serves calls: ready, connected, and the transport reports nothing against it. */
  predicate Serves(c: Conn, r: Report) {
    c.state.Ready? && c.connection.Some? && r.failure.None? && !r.stale
  }

  /** The slot is stale, or the transport just reported a changed catalogue and no failure. */
  predicate SeenStale(c: Conn, r: Report) {
    c.state.Stale? || (c.state.Ready? && c.connection.Some? && r.failure.None? && r.stale)
  }

  /** One operation of the object is the same step of the interleaving model. */
  predicate Steps(c: Conn, leases: nat, guards: nat, op: Op, c': Conn, leases': nat, guards': nat) {
    var next := Next(System(c, leases, guards, 0, false, Absent), op);
    next.Some? && next.value.conn == c' && next.value.leases == leases' && next.value.guards == guards'
  }

  class McpConnectionSlot {
    var state: ServerState
    var code: Option<Code>
    var connection: Option<nat>
    var inFlight: nat
    var restartCount: nat
    /** Leases and reconnect guards handed out and not yet given back. */
    ghost var leases: nat
    ghost var guards: nat

    function View(): Conn
      reads this
    {
      Conn(state, code, connection, inFlight, restartCount)
    }

    ghost predicate Valid()
      reads this
    {
      SlotOk(View(), leases, guards)
    }

    constructor Serving(handle: nat)
      ensures Valid() && leases == 0 && guards == 0 && restartCount == 0
      ensures state.Ready? && connection == Some(handle)
    {
      state, code, connection, inFlight, restartCount := Ready, None, Some(handle), 0, 0;
      leases, guards := 0, 0;
    }

    constructor Broken(failure: Code)
      ensures Valid() && leases == 0 && guards == 0 && restartCount == 0
      ensures state.Unhealthy? && code == Some(failure)
    {
      state, code, connection, inFlight, restartCount := Unhealthy, Some(failure), None, 0, 0;
      leases, guards := 0, 0;
    }

    /** Afterwards a ready slot is one that serves; only a ready slot can change, and only to unhealthy or stale. */
    method Synchronize(r: Report)
      modifies this`state, this`code
      ensures (old(Valid()) ==> Valid()) && (state.Ready? <==> Serves(old(View()), r)) && (state.Stale? <==> SeenStale(old(View()), r))
      ensures state != old(state) ==> old(state).Ready? && (state.Unhealthy? || state.Stale?)
      ensures state == old(state) ==> code == old(code)
      ensures state != old(state) && state.Stale? ==> code == Some(StaleCatalog)
      ensures state != old(state) && state.Unhealthy? ==> code == if connection.None? then Some(Unavailable) else r.failure
      ensures Steps(old(View()), leases, guards, ReadHealth(r), View(), leases, guards)
    {
      if state != Ready {
        return;
      }
      if connection.None? {
        state, code := Unhealthy, Some(Unavailable);
        return;
      }
      if r.failure.Some? {
        state, code := Unhealthy, r.failure;
      } else if r.stale {
        state, code := Stale, Some(StaleCatalog);
      }
    }

    /** A lease is granted exactly on a serving slot below the counter's bound; otherwise the code names the cause. */
    method AcquireCall(r: Report) returns (refused: Option<Code>, handle: nat)
      requires Valid()
      modifies this
      ensures Valid() && guards == old(guards) && restartCount == old(restartCount) && connection == old(connection)
      ensures refused.None? <==> Serves(old(View()), r) && old(leases) < USIZE_MAX
      ensures refused.None? ==> connection == Some(handle) && state == old(state) && leases == old(leases) + 1
      ensures refused.Some? ==> leases == old(leases)
      ensures refused == Some(OutputBound) <==> Serves(old(View()), r) && old(leases) == USIZE_MAX
      ensures refused == Some(StaleCatalog) <==> SeenStale(old(View()), r)
      ensures refused == Some(Unavailable) <==> !Serves(old(View()), r) && !SeenStale(old(View()), r)
      ensures Steps(old(View()), old(leases), old(guards), Op.AcquireCall(r), View(), leases, guards)
    {
      handle := 0;
      Synchronize(r);
      if state != Ready {
        return Some(if state == Stale then StaleCatalog else Unavailable), handle;
      }
      if connection.None? {
        return Some(Unavailable), handle;
      }
      if inFlight == USIZE_MAX {
        return Some(OutputBound), handle;
      }
      inFlight, leases := inFlight + 1, leases + 1;
      return None, connection.value;
    }

    /** Dropping a lease touches nothing else; a notification is owed exactly by the last one. */
    method ReleaseCall() returns (drained: bool)
      requires Valid() && leases > 0
      modifies this
      ensures Valid() && leases == old(leases) - 1 && (drained <==> leases == 0)
      ensures View() == old(View()).(inFlight := inFlight) && guards == old(guards)
      ensures Steps(old(View()), old(leases), old(guards), DropLease, View(), leases, guards)
    {
      inFlight, leases := SaturatingPred(inFlight), leases - 1;
      drained := inFlight == 0;
    }

    /** A guard is handed out exactly when no lease is live, the slot is not stopped or reconnecting and does not serve. */
    method BeginReconnect(r: Report) returns (granted: bool)
      requires Valid()
      modifies this
      ensures Valid() && leases == old(leases) && restartCount == old(restartCount)
      ensures granted <==> old(leases) == 0 && !Serves(old(View()), r) && !old(state).Stopped? && !old(state).Reconnecting?
      ensures granted ==> old(guards) == 0 && guards == 1 && state.Reconnecting? && connection.None?
      ensures !granted ==> guards == old(guards) && connection == old(connection)
      ensures Steps(old(View()), old(leases), old(guards), Op.BeginReconnect(r), View(), leases, guards)
    {
      Synchronize(r);
      if inFlight != 0 || (state != Stale && state != Unhealthy) {
        return false;
      }
      state, code, connection := Reconnecting, None, None;
      guards := guards + 1;
      return true;
    }

    /** Attempts are counted up to the bound of the health projection and never past it. */
    method RecordAttempt() returns (ok: bool)
      requires Valid() && guards == 1
      modifies this`restartCount
      ensures Valid() && HealthOk(View())
      ensures restartCount == (if ok then old(restartCount) + 1 else MAX_RESTART_COUNT) && (!ok ==> old(restartCount) == restartCount)
      ensures Steps(old(View()), leases, guards, Op.RecordAttempt, View(), leases, guards)
    {
      if restartCount >= MAX_RESTART_COUNT {
        return false;
      }
      restartCount := restartCount + 1;
      return true;
    }

    /** The new connection is installed unless the slot was stopped meanwhile; the guard is spent either way. */
    method Complete(handle: nat) returns (ok: bool)
      requires Valid() && guards == 1
      modifies this
      ensures Valid() && guards == 0 && leases == 0 && restartCount == old(restartCount)
      ensures ok <==> !old(state).Stopped?
      ensures ok ==> state.Ready? && connection == Some(handle)
      ensures !ok ==> View() == old(View())
      ensures Steps(old(View()), old(leases), old(guards), Op.Complete(handle), View(), leases, guards)
    {
      guards := guards - 1;
      if state != Reconnecting {
        return false;
      }
      state, code, connection := Ready, None, Some(handle);
      return true;
    }

    /** A failed or dropped guard leaves an unhealthy slot, never a reconnecting one; a stopped slot stays stopped. */
    method Fail(failure: Code)
      requires Valid() && guards == 1
      modifies this
      ensures Valid() && guards == 0 && leases == 0 && restartCount == old(restartCount)
      ensures old(state).Stopped? ==> View() == old(View())
      ensures !old(state).Stopped? ==> state.Unhealthy? && code == Some(failure) && connection.None?
      ensures Steps(old(View()), old(leases), old(guards), Op.Fail(failure), View(), leases, guards)
    {
      guards := guards - 1;
      if state == Stopped {
        return;
      }
      state, code, connection := Unhealthy, Some(failure), None;
    }

    method Stop()
      requires Valid() && guards == 1
      modifies this
      ensures Valid() && guards == 0 && leases == 0 && state.Stopped? && connection.None?
      ensures Steps(old(View()), old(leases), old(guards), StopGuard, View(), leases, guards)
    {
      guards := guards - 1;
      state, code, connection := Stopped, None, None;
    }

    /** Shutdown takes the connection away and leaves leases and guards to their holders. */
    method BeginShutdown() returns (drained: bool)
      requires Valid()
      modifies this
      ensures Valid() && leases == old(leases) && guards == old(guards) && restartCount == old(restartCount)
      ensures state.Stopped? && connection.None? && (drained <==> leases == 0)
      ensures Steps(old(View()), old(leases), old(guards), Op.BeginShutdown, View(), leases, guards)
    {
      state, code, connection := Stopped, None, None;
      drained := inFlight == 0;
    }
  }

  /** A call that starts and ends leaves the slot as it was. */
  method CallOnce(slot: McpConnectionSlot, r: Report) returns (ran: bool)
    requires slot.Valid() && slot.leases < USIZE_MAX
    modifies slot
    ensures slot.Valid() && slot.leases == old(slot.leases) && slot.guards == old(slot.guards)
    ensures ran <==> Serves(old(slot.View()), r)
    ensures ran ==> slot.View() == old(slot.View())
  {
    var refused, _ := slot.AcquireCall(r);
    ran := refused.None?;
    if ran {
      var _ := slot.ReleaseCall();
    }
  }

  /** A completed reconnect serves the next call over its new connection. */
  method ReconnectOnce(slot: McpConnectionSlot, r: Report, handle: nat, healthy: Report) returns (granted: bool, lease: Option<nat>)
    requires slot.Valid() && healthy.failure.None? && !healthy.stale
    modifies slot
    ensures slot.Valid() && (!granted ==> slot.leases == old(slot.leases))
    ensures granted ==> lease == Some(handle) && slot.leases == 1 && slot.guards == 0
  {
    lease := None;
    granted := slot.BeginReconnect(r);
    if granted {
      var _ := slot.RecordAttempt();
      var _ := slot.Complete(handle);
      var refused, h := slot.AcquireCall(healthy);
      lease := if refused.None? then Some(h) else None;
    }
  }

  // ------------------------------------------------------------ interleavings

  /** Whoever is inside `wait_for_drain`: about to look, about to wait, waiting, or finished. */
  datatype Waiter = Absent | Looking | Polling | Blocked | Finished(drained: bool)

  /**
   The slot with everybody who uses it: live leases, active guards, lease drops and
   shutdowns that released the lock but have not notified yet, and a stored permit.
  */
  datatype System = System(conn: Conn, leases: nat, guards: nat, owed: nat, permit: bool, waiter: Waiter)

  datatype Op =
    | AcquireCall(report: Report)
    | DropLease
    | BeginReconnect(report: Report)
    | RecordAttempt
    | Complete(handle: nat)
    | Fail(code: Code)
    | StopGuard
    | ReadHealth(report: Report)
    | BeginShutdown
    | Notify
    | StartWaiting
    | Look
    | Poll
    | TimeOut

  function Owe(s: System): System {
    if s.conn.inFlight == 0 then s.(owed := s.owed + 1) else s
  }

  /** One step; `None` when nobody could take it (no live lease, no active guard, no waiter). */
  function Next(s: System, op: Op): Option<System> {
    match op
    case AcquireCall(r) =>
      var (c, refused) := Acquired(s.conn, r);
      Some(if refused.None? then s.(conn := c, leases := s.leases + 1) else s.(conn := c))
    case DropLease =>
      if s.leases == 0 then None else Some(Owe(s.(conn := Released(s.conn), leases := s.leases - 1)))
    case BeginReconnect(r) =>
      var (c, granted) := Begun(s.conn, r);
      Some(if granted then s.(conn := c, guards := s.guards + 1) else s.(conn := c))
    case RecordAttempt => if s.guards == 0 then None else Some(s.(conn := Attempted(s.conn).0))
    case Complete(h) => if s.guards == 0 then None else Some(s.(conn := Completed(s.conn, h).0, guards := s.guards - 1))
    case Fail(code) => if s.guards == 0 then None else Some(s.(conn := Failed(s.conn, code), guards := s.guards - 1))
    case StopGuard => if s.guards == 0 then None else Some(s.(conn := Shut(s.conn), guards := s.guards - 1))
    case ReadHealth(r) => Some(s.(conn := Synchronized(s.conn, r)))
    case BeginShutdown => Some(Owe(s.(conn := Shut(s.conn))))
    case Notify =>
      if s.owed == 0 then None
      else if s.waiter.Blocked? then Some(s.(owed := s.owed - 1, waiter := Looking))
      else Some(s.(owed := s.owed - 1, permit := true))
    case StartWaiting => if s.waiter.Absent? || s.waiter.Finished? then Some(s.(waiter := Looking)) else None
    case Look =>
      if !s.waiter.Looking? then None
      else Some(s.(waiter := if s.conn.inFlight == 0 then Finished(true) else Polling))
    case Poll =>
      if !s.waiter.Polling? then None
      else if s.permit then Some(s.(permit := false, waiter := Looking))
      else Some(s.(waiter := Blocked))
    case TimeOut => if s.waiter.Polling? || s.waiter.Blocked? then Some(s.(waiter := Finished(false))) else None
  }

  /** The state after a run; operations nobody can take are skipped. */
  function After(s: System, ops: seq<Op>): System {
    if ops == [] then s
    else
      var before := After(s, ops[..|ops| - 1]);
      match Next(before, ops[|ops| - 1])
      case None => before
      case Some(t) => t
  }

  predicate Initial(s: System) {
    && (|| (s.conn == Conn(Ready, None, s.conn.connection, 0, 0) && s.conn.connection.Some?)
        || s.conn == Conn(Unhealthy, s.conn.code, None, 0, 0))
    && s.leases == 0 && s.guards == 0 && s.owed == 0 && !s.permit && s.waiter.Absent?
  }

  // ---------------------------------------------------------------- invariants

  predicate ConnOk(c: Conn) {
    && !c.state.Configured? && !c.state.Starting?
    && (c.state.Ready? ==> c.connection.Some?)
    && c.restarts <= MAX_RESTART_COUNT
  }

  /** If the waiter will sleep or sleeps although nothing is in flight, a wake-up is on its way. */
  predicate WakeUpComing(s: System) {
    && (s.waiter.Polling? && s.conn.inFlight == 0 ==> s.permit || s.owed > 0)
    && (s.waiter.Blocked? ==> !s.permit && (s.conn.inFlight == 0 ==> s.owed > 0))
  }

  /** The slot against the leases and guards its users hold. */
  predicate SlotOk(c: Conn, leases: nat, guards: nat) {
    && ConnOk(c)
    && c.inFlight == leases <= USIZE_MAX
    && guards <= 1
    && (guards == 1 ==> leases == 0 && (c.state.Reconnecting? || c.state.Stopped?))
    && (c.state.Reconnecting? ==> guards == 1)
  }

  predicate Inv(s: System) {
    SlotOk(s.conn, s.leases, s.guards) && WakeUpComing(s)
  }

  lemma StepKeepsInv(s: System, op: Op)
    requires Inv(s) && Next(s, op).Some?
    ensures Inv(Next(s, op).value)
  {
    match op {
      case Complete(_) => assert s.guards == 1;
      case _ =>
    }
  }

  /** The slot once the step has looked at what the transport reports. */
  function Observed(s: System, op: Op): Conn {
    match op
    case AcquireCall(r) => Synchronized(s.conn, r)
    case BeginReconnect(r) => Synchronized(s.conn, r)
    case ReadHealth(r) => Synchronized(s.conn, r)
    case _ => s.conn
  }

  predicate Follows(a: ServerState, b: ServerState) {
    a == b || CanTransition(a, b)
  }

  /**
   Every write of a step follows the lifecycle table, first what the transport
   reports and then the operation itself.  What others see after the step follows
   the table unless a reconnect begins on a ready slot without calls in flight whose
   connection is reported failed or stale just then.
  */
  lemma StepFollowsTable(s: System, op: Op)
    requires Inv(s) && Next(s, op).Some?
    ensures Follows(s.conn.state, Observed(s, op).state) && Follows(Observed(s, op).state, Next(s, op).value.conn.state)
    ensures Follows(s.conn.state, Next(s, op).value.conn.state) <==>
              !(op.BeginReconnect? && s.conn.state.Ready? && s.conn.inFlight == 0 && (op.report.failure.Some? || op.report.stale))
  {
    if op.Complete? || op.Fail? {
      assert s.guards == 1;
    }
  }

  /** A ready slot whose connection fails can be seen reconnecting next, which the table does not list. */
  lemma ReadyMayBeSeenReconnecting(handle: nat, code: Code)
    ensures
      var s := System(Conn(Ready, None, Some(handle), 0, 0), 0, 0, 0, false, Absent);
      var t := After(s, [BeginReconnect(Report(Some(code), false))]);
      Initial(s) && t.conn.state.Reconnecting? && !Follows(s.conn.state, t.conn.state)
  {
    OneStep(System(Conn(Ready, None, Some(handle), 0, 0), 0, 0, 0, false, Absent), BeginReconnect(Report(Some(code), false)));
  }

  lemma OneStep(s: System, op: Op)
    ensures After(s, [op]) == (match Next(s, op) case None => s case Some(t) => t)
  {
    assert [op][..0] == [] && After(s, []) == s;
  }

  lemma StepAfterStop(s: System, op: Op)
    requires Inv(s) && Next(s, op).Some? && s.conn.state.Stopped?
    ensures Next(s, op).value.conn.state.Stopped? && Next(s, op).value.conn.inFlight <= s.conn.inFlight
  {
  }

  lemma {:induction false} RunKeepsInv(s: System, ops: seq<Op>)
    requires Inv(s)
    ensures Inv(After(s, ops))
  {
    if ops != [] {
      var before, op := After(s, ops[..|ops| - 1]), ops[|ops| - 1];
      RunKeepsInv(s, ops[..|ops| - 1]);
      if Next(before, op).Some? {
        StepKeepsInv(before, op);
      }
    }
  }

  /**
   In every run: the count in flight is the number of live leases, at most one guard
   is active and then no lease is, a reconnecting slot has its guard, a ready slot has
   its connection, and the health projection accepts the restart count.
  */
  lemma RunsAreSafe(s: System, ops: seq<Op>)
    requires Initial(s)
    ensures
      var t := After(s, ops);
      && t.conn.inFlight == t.leases && t.guards <= 1
      && (t.guards == 1 ==> t.leases == 0)
      && (t.conn.state.Reconnecting? ==> t.guards == 1)
      && (t.conn.state.Ready? ==> t.conn.connection.Some?)
      && HealthOk(t.conn)
  {
    assert Inv(s);
    RunKeepsInv(s, ops);
  }

  /** No lost wake-up: in every run a sleeping waiter has work in flight or a notification coming. */
  lemma NoLostWakeUp(s: System, ops: seq<Op>)
    requires Initial(s)
    ensures
      var t := After(s, ops);
      && (t.waiter.Blocked? ==> t.leases > 0 || t.owed > 0)
      && (t.waiter.Polling? && t.leases == 0 ==> t.permit || t.owed > 0)
  {
    assert Inv(s);
    RunKeepsInv(s, ops);
  }

  lemma {:induction false} AfterAppend(s: System, a: seq<Op>, b: seq<Op>)
    ensures After(s, a + b) == After(After(s, a), b)
    decreases |b|
  {
    if b == [] {
      assert a + b == a;
    } else {
      assert (a + b)[..|a + b| - 1] == a + b[..|b| - 1];
      AfterAppend(s, a, b[..|b| - 1]);
    }
  }

  lemma {:induction false} StoppedForGood(s: System, ops: seq<Op>)
    requires Inv(s) && s.conn.state.Stopped?
    ensures After(s, ops).conn.state.Stopped? && After(s, ops).leases <= s.leases
  {
    if ops != [] {
      var before, op := After(s, ops[..|ops| - 1]), ops[|ops| - 1];
      StoppedForGood(s, ops[..|ops| - 1]);
      RunKeepsInv(s, ops[..|ops| - 1]);
      if Next(before, op).Some? {
        StepAfterStop(before, op);
        StepKeepsInv(before, op);
      }
    }
  }

  /** Stopped is absorbing: after it is reached in a run it stays, and the calls in flight never increase. */
  lemma StoppedIsAbsorbing(s: System, ops: seq<Op>, more: seq<Op>)
    requires Initial(s) && After(s, ops).conn.state.Stopped?
    ensures After(s, ops + more).conn.state.Stopped?
    ensures After(s, ops + more).conn.inFlight <= After(s, ops).conn.inFlight
  {
    assert Inv(s);
    RunKeepsInv(s, ops);
    RunKeepsInv(s, ops + more);
    AfterAppend(s, ops, more);
    StoppedForGood(After(s, ops), more);
  }

  /** The drop of the last lease and one look are enough: a stopped, empty slot lets its waiter finish. */
  lemma DrainedWaiterFinishes(s: System)
    requires Inv(s) && s.conn.state.Stopped? && s.leases == 0 && (s.waiter.Polling? || s.waiter.Blocked?)
    ensures exists ops :: |ops| <= 3 && After(s, ops).waiter == Finished(true)
  {
    hide After;
    if s.waiter.Blocked? || s.permit {
      TwoSteps(s, if s.waiter.Blocked? then Notify else Poll, Look);
    } else {
      var t := Next(s, Notify).value;
      OneStep(s, Notify);
      TwoSteps(t, Poll, Look);
      AfterAppend(s, [Notify], [Poll, Look]);
      assert |[Notify] + [Poll, Look]| <= 3;
    }
  }

  lemma TwoSteps(s: System, a: Op, b: Op)
    requires Next(s, a).Some? && Next(Next(s, a).value, b).Some?
    ensures After(s, [a, b]) == Next(Next(s, a).value, b).value
  {
    hide After;
    OneStep(s, a);
    OneStep(Next(s, a).value, b);
    AfterAppend(s, [a], [b]);
    assert [a] + [b] == [a, b];
  }

  // ----------------------------------------------------------- every schedule

  predicate Waiting(w: Waiter) {
    w.Looking? || w.Polling? || w.Blocked?
  }

  predicate DrainStep(op: Op) {
    op.Notify? || op.Poll? || op.Look?
  }

  /** How many notifications, polls and looks a drained slot's waiter can still take. */
  function Work(s: System): nat {
    3 * s.owed + match s.waiter case Looking => 1 case Blocked => 2 case Polling => 3 case _ => 0
  }

  /** The drain steps of a run that somebody could take. */
  function DrainSteps(s: System, ops: seq<Op>): nat {
    if ops == [] then 0
    else
      var before, op := After(s, ops[..|ops| - 1]), ops[|ops| - 1];
      DrainSteps(s, ops[..|ops| - 1]) + if DrainStep(op) && Next(before, op).Some? then 1 else 0
  }

  function Shutdowns(ops: seq<Op>): nat {
    if ops == [] then 0 else Shutdowns(ops[..|ops| - 1]) + if ops[|ops| - 1].BeginShutdown? then 1 else 0
  }

  /** A stopped slot without leases, and a waiter that waits or has seen it drained. */
  predicate Draining(s: System) {
    Inv(s) && s.conn.state.Stopped? && s.leases == 0 && (Waiting(s.waiter) || s.waiter == Finished(true))
  }

  /** Every drain step anybody can take is progress, and no other step undoes any, except that each shutdown owes one more. */
  lemma DrainStepProgress(s: System, op: Op)
    requires Draining(s) && !op.TimeOut? && !op.StartWaiting? && Next(s, op).Some?
    ensures Draining(Next(s, op).value)
    ensures DrainStep(op) ==> Work(Next(s, op).value) < Work(s)
    ensures !DrainStep(op) ==> Work(Next(s, op).value) <= Work(s) + if op.BeginShutdown? then 3 else 0
  {
    StepKeepsInv(s, op);
  }

  /** A waiter that waits on a drained slot is never stuck: somebody can take a drain step. */
  lemma DrainStepEnabled(s: System)
    requires Draining(s) && Waiting(s.waiter)
    ensures exists op :: DrainStep(op) && Next(s, op).Some?
  {
    var op := match s.waiter case Looking => Look case Polling => Poll case _ => Notify;
    assert DrainStep(op) && Next(s, op).Some?;
  }

  lemma {:induction false} DrainProgress(s: System, ops: seq<Op>)
    requires Draining(s) && forall op <- ops :: !op.TimeOut? && !op.StartWaiting?
    ensures Draining(After(s, ops))
    ensures Work(After(s, ops)) + DrainSteps(s, ops) <= Work(s) + 3 * Shutdowns(ops)
  {
    if ops != [] {
      var front, op := ops[..|ops| - 1], ops[|ops| - 1];
      assert forall o <- front :: o in ops;
      DrainProgress(s, front);
      var before := After(s, front);
      if Next(before, op).Some? {
        DrainStepProgress(before, op);
      }
    }
  }

  /**
   Under every schedule: before its deadline, a waiter on a stopped and drained slot
   has finished once as many drain steps were taken as there was work.
  */
  lemma EveryScheduleDrains(s: System, ops: seq<Op>)
    requires Draining(s) && forall op <- ops :: !op.TimeOut? && !op.StartWaiting?
    requires DrainSteps(s, ops) >= Work(s) + 3 * Shutdowns(ops)
    ensures After(s, ops).waiter == Finished(true)
  {
    DrainProgress(s, ops);
  }
}

/**
 The counters a resumed run rebuilds from the log, compared with what the run
 really did: checkpointed turns for tool iterations, and assistant output bytes.
*/
module RunCounters {
  import opened Basics
  import opened SessionLog

  const U32_MAX: nat := 0xFFFF_FFFF

  /** Turns of a run with at least one checkpoint. */
  function CheckpointedTurns(log: seq<Record>, run: nat): set<nat> {
    if log == [] then {}
    else
      var last := log[|log| - 1];
      CheckpointedTurns(log[..|log| - 1], run) + (if last.TurnCheckpointed? && last.run == run then {last.turn} else {})
  }

  predicate IsAssistant(r: Record) {
    r.MessageCommitted? && r.message.Assistant?
  }

  function RecordBytes(r: Record, size: Block -> nat): nat {
    if IsAssistant(r) then ContentBytes(r.message.content, size) else 0
  }

  /** All assistant bytes a log commits. */
  function AssistantBytes(log: seq<Record>, size: Block -> nat): nat {
    if log == [] then 0
    else AssistantBytes(log[..|log| - 1], size) + RecordBytes(log[|log| - 1], size)
  }

  /** Assistant bytes committed since the last checkpoint of any run. */
  function Segment(log: seq<Record>, size: Block -> nat): nat {
    if log == [] || log[|log| - 1].TurnCheckpointed? then 0
    else Segment(log[..|log| - 1], size) + RecordBytes(log[|log| - 1], size)
  }

  /** Segments credited to a run: those that one of its checkpoints closes. */
  function CreditedBytes(log: seq<Record>, run: nat, size: Block -> nat): nat {
    if log == [] then 0
    else
      var front, last := log[..|log| - 1], log[|log| - 1];
      CreditedBytes(front, run, size) + if last.TurnCheckpointed? && last.run == run then Segment(front, size) else 0
  }

  lemma {:induction false} SegmentWithinTotal(log: seq<Record>, run: nat, size: Block -> nat)
    ensures CreditedBytes(log, run, size) + Segment(log, size) <= AssistantBytes(log, size)
  {
    if log != [] {
      SegmentWithinTotal(log[..|log| - 1], run, size);
    }
  }

  /** The source's two-counter scan; it gives up only when the log holds more bytes than a `usize` counts. */
  method RebuildOutputBytes(log: seq<Record>, run: nat, size: Block -> nat) returns (bytes: Option<nat>)
    ensures bytes.Some? ==> bytes.value == CreditedBytes(log, run, size)
    ensures bytes.None? ==> AssistantBytes(log, size) > USIZE_MAX
  {
    var segment, total := 0, 0;
    for i := 0 to |log|
      invariant segment == Segment(log[..i], size)
      invariant total == CreditedBytes(log[..i], run, size)
      invariant segment <= USIZE_MAX && total <= USIZE_MAX
    {
      assert log[..i + 1][..i] == log[..i];
      SegmentWithinTotal(log[..i + 1], run, size);
      BytesMonotone(log, i + 1, size);
      match log[i] {
        case MessageCommitted(Assistant(_, content)) =>
          segment := segment + ContentBytes(content, size);
          if segment > USIZE_MAX {
            return None;
          }
        case TurnCheckpointed(r, _, _) =>
          if r == run {
            SegmentWithinTotal(log[..i], run, size);
            total := total + segment;
            if total > USIZE_MAX {
              return None;
            }
          }
          segment := 0;
        case _ =>
      }
    }
    assert log[..|log|] == log;
    bytes := Some(total);
  }

  lemma {:induction false} BytesMonotone(log: seq<Record>, i: nat, size: Block -> nat)
    requires i <= |log|
    ensures AssistantBytes(log[..i], size) <= AssistantBytes(log, size)
  {
    if i == |log| {
      assert log[..i] == log;
    } else {
      assert log[..|log| - 1][..i] == log[..i];
      BytesMonotone(log[..|log| - 1], i, size);
    }
  }

  /** Distinct checkpointed turns, saturating at the `u32` bound. */
  method RebuildIterations(log: seq<Record>, run: nat) returns (iterations: nat)
    ensures iterations == if |CheckpointedTurns(log, run)| <= U32_MAX then |CheckpointedTurns(log, run)| else U32_MAX
  {
    var turns: set<nat> := {};
    for i := 0 to |log|
      invariant turns == CheckpointedTurns(log[..i], run)
    {
      assert log[..i + 1][..i] == log[..i];
      match log[i] {
        case TurnCheckpointed(r, turn, _) => if r == run { turns := turns + {turn}; }
        case _ =>
      }
    }
    assert log[..|log|] == log;
    iterations := if |turns| <= U32_MAX then |turns| else U32_MAX;
  }

  // ------------------------------------------------ rebuilt against real use

  predicate OnlyCheckpointsOf(log: seq<Record>, run: nat) {
    forall r <- log :: r.TurnCheckpointed? ==> r.run == run
  }

  predicate NoCheckpointOf(log: seq<Record>, run: nat) {
    forall r <- log :: r.TurnCheckpointed? ==> r.run != run
  }

  predicate HasCheckpoint(log: seq<Record>) {
    exists r <- log :: r.TurnCheckpointed?
  }

  lemma {:induction false} NothingCredited(prior: seq<Record>, run: nat, size: Block -> nat)
    requires NoCheckpointOf(prior, run)
    ensures CreditedBytes(prior, run, size) == 0
  {
    if prior != [] {
      NothingCredited(prior[..|prior| - 1], run, size);
    }
  }

  /**
   With `prior` the log before a run and `mine` what was appended while it was the
   only run, the rebuilt count is the run's own closed bytes plus the assistant
   bytes an earlier run left behind without a checkpoint.
  */
  lemma {:induction false} CreditSplit(prior: seq<Record>, mine: seq<Record>, run: nat, size: Block -> nat)
    requires NoCheckpointOf(prior, run) && OnlyCheckpointsOf(mine, run)
    ensures
      if HasCheckpoint(mine) then
        && CreditedBytes(prior + mine, run, size) + Segment(mine, size) ==
             AssistantBytes(mine, size) + Segment(prior, size)
        && Segment(prior + mine, size) == Segment(mine, size)
      else
        && CreditedBytes(prior + mine, run, size) == 0
        && Segment(prior + mine, size) == Segment(prior, size) + AssistantBytes(mine, size)
        && Segment(mine, size) == AssistantBytes(mine, size)
    decreases |mine|
  {
    if mine == [] {
      assert prior + mine == prior;
      NothingCredited(prior, run, size);
    } else {
      var front, last := mine[..|mine| - 1], mine[|mine| - 1];
      assert mine == front + [last];
      assert (prior + mine)[..|prior + mine| - 1] == prior + front;
      CreditSplit(prior, front, run, size);
      assert HasCheckpoint(mine) <==> HasCheckpoint(front) || last.TurnCheckpointed? by {
        if HasCheckpoint(front) {
          var r :| r in front && r.TurnCheckpointed?;
          assert r in mine;
        }
      }
    }
  }

  /**
   When every assistant message of the run is closed by a checkpoint, the rebuilt
   count never undercounts, and is exact precisely when no bytes were left over.
  */
  lemma RebuiltBytes(prior: seq<Record>, mine: seq<Record>, run: nat, size: Block -> nat)
    requires NoCheckpointOf(prior, run) && OnlyCheckpointsOf(mine, run)
    requires HasCheckpoint(mine) && Segment(mine, size) == 0
    ensures CreditedBytes(prior + mine, run, size) == AssistantBytes(mine, size) + Segment(prior, size)
    ensures CreditedBytes(prior + mine, run, size) == AssistantBytes(mine, size) <==> Segment(prior, size) == 0
  {
    CreditSplit(prior, mine, run, size);
  }

  // ---------------------------------------------------- records that count nothing

  /** Records that close no turn, request no call and carry no assistant message. */
  predicate Plain(rs: seq<Record>) {
    forall r <- rs :: !r.TurnCheckpointed? && !IsAssistant(r) && !r.ToolCallRequested?
  }

  /** The calls a log requests, in order. */
  function RequestedCalls(log: seq<Record>): seq<Call> {
    if log == [] then []
    else
      var last := log[|log| - 1];
      RequestedCalls(log[..|log| - 1]) + (if last.ToolCallRequested? then [last.request] else [])
  }

  /** What the counters see of a log. */
  predicate SameCounters(a: seq<Record>, b: seq<Record>, run: nat, size: Block -> nat) {
    && CheckpointedTurns(a, run) == CheckpointedTurns(b, run)
    && AssistantBytes(a, size) == AssistantBytes(b, size)
    && Segment(a, size) == Segment(b, size)
    && RequestedCalls(a) == RequestedCalls(b)
  }

  lemma {:induction false} PlainCountsNothing(log: seq<Record>, rs: seq<Record>, run: nat, size: Block -> nat)
    requires Plain(rs)
    ensures SameCounters(log, log + rs, run, size)
    decreases |rs|
  {
    if rs == [] {
      assert log + rs == log;
    } else {
      var front, last := rs[..|rs| - 1], rs[|rs| - 1];
      assert (log + rs)[..|log + rs| - 1] == log + front;
      PlainCountsNothing(log, front, run, size);
      assert last in rs;
    }
  }
}

/**
 Ending a failed run: what `ensure_run_terminal` leaves in the log, and exactly
 when that is one ending.
*/
module RunEndings {
  import opened Basics
  import opened SessionLog

  function EndingRecord(run: nat, turn: nat, cancelled: bool): Record {
    if cancelled then RunCancelled(run) else RunInterrupted(run, turn)
  }

  /** The guard of `ensure_run_terminal`, read off the materialized state. */
  predicate AlreadyEnded(s: State, run: nat) {
    run in s.recovery || (s.checkpoint.Some? && s.checkpoint.value.run == run && s.checkpoint.value.next.FinishRun?)
  }

  /** The log after a failed run is ended over a working store. */
  function Ended(log: seq<Record>, run: nat, turn: nat, cancelled: bool): seq<Record>
    requires Replay(log).Some?
  {
    if AlreadyEnded(Replay(log).value, run) then log else log + [EndingRecord(run, turn, cancelled)]
  }

  function FinishCount(log: seq<Record>, run: nat): nat {
    if log == [] then 0 else FinishCount(log[..|log| - 1], run) + One(FinishesRun(log[|log| - 1], run))
  }

  lemma {:induction false} EndingsSplit(log: seq<Record>, run: nat)
    ensures Endings(log, run) == AbnormalEndings(log, run) + FinishCount(log, run)
  {
    if log != [] {
      EndingsSplit(log[..|log| - 1], run);
    }
  }

  /** The last checkpoint of the log finishes this run. */
  predicate FinishedLast(log: seq<Record>, run: nat) {
    var c := LastCheckpoint(log);
    c.Some? && c.value.run == run && c.value.next.FinishRun?
  }

  lemma {:induction false} FinishedLastCounts(log: seq<Record>, run: nat)
    requires FinishedLast(log, run)
    ensures FinishCount(log, run) > 0
  {
    if !FinishesRun(log[|log| - 1], run) {
      FinishedLastCounts(log[..|log| - 1], run);
    }
  }

  lemma EndedAccepted(log: seq<Record>, run: nat, turn: nat, cancelled: bool)
    requires Replay(log).Some?
    ensures Replay(Ended(log, run, turn, cancelled)).Some?
    ensures AlreadyEnded(Replay(Ended(log, run, turn, cancelled)).value, run)
    ensures !AlreadyEnded(Replay(log).value, run) ==> run in Replay(Ended(log, run, turn, cancelled)).value.recovery
  {
    var r := EndingRecord(run, turn, cancelled);
    assert (log + [r])[..|log|] == log;
  }

  /**
   Over every log: ending a run leaves exactly one ending if and only if the log
   held at most one, and a finishing checkpoint, if that is what it held, was
   still the latest checkpoint.
  */
  lemma EndedExactlyOnce(log: seq<Record>, run: nat, turn: nat, cancelled: bool)
    requires Replay(log).Some?
    ensures Endings(Ended(log, run, turn, cancelled), run) == 1 <==>
              Endings(log, run) <= 1 && (FinishCount(log, run) == 1 ==> FinishedLast(log, run))
  {
    RecoveryMatchesLog(log, run);
    EndingsSplit(log, run);
    if FinishedLast(log, run) { FinishedLastCounts(log, run); }
    var r := EndingRecord(run, turn, cancelled);
    assert (log + [r])[..|log|] == log;
  }

  /** Running the nested ending handlers again, with any error, changes nothing. */
  lemma EndedTwiceIsEndedOnce(log: seq<Record>, run: nat, turn: nat, cancelled: bool, turn': nat, cancelled': bool)
    requires Replay(log).Some?
    ensures Replay(Ended(log, run, turn, cancelled)).Some?
    ensures Ended(Ended(log, run, turn, cancelled), run, turn', cancelled') == Ended(log, run, turn, cancelled)
  {
    EndedAccepted(log, run, turn, cancelled);
  }

  lemma EndingsSnoc(log: seq<Record>, r: Record, run: nat)
    ensures Endings(log + [r], run) == Endings(log, run) + One(EndsAbnormally(r, run) || FinishesRun(r, run))
    ensures FinishCount(log + [r], run) == FinishCount(log, run) + One(FinishesRun(r, run))
  {
    assert (log + [r])[..|log|] == log;
  }

  /** Finishing a run that was already interrupted or cancelled gives it a second ending. */
  lemma FinishAfterInterruption(log: seq<Record>, run: nat, turn: nat)
    requires Replay(log).Some? && run in Replay(log).value.recovery
    ensures Replay(log + [TurnCheckpointed(run, turn, FinishRun)]).Some?
    ensures Endings(log + [TurnCheckpointed(run, turn, FinishRun)], run) > 1
  {
    var r := TurnCheckpointed(run, turn, FinishRun);
    assert (log + [r])[..|log|] == log;
    RecoveryMatchesLog(log, run);
    EndingsSplit(log, run);
    EndingsSnoc(log, r, run);
  }
}

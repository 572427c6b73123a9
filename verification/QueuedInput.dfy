/**
 The input queue against the session log: what was acknowledged is in the log, and
 what happens when a snapshot was written but could not be acknowledged.
*/
module QueuedInput {
  import opened Basics
  import opened SessionLog
  import opened RunCounters
  import opened Kernel
  import Q = InputQueue

  /** The snapshot was committed: its messages stand in the log one after the other. */
  ghost predicate Fed(batch: Q.Snapshot, log: seq<Record>) {
    exists id: nat, front: seq<Record>, back: seq<Record> :: FedAt(batch, log, id, front, back)
  }

  ghost predicate FedAt(batch: Q.Snapshot, log: seq<Record>, id: nat, front: seq<Record>, back: seq<Record>) {
    log == front + Q.Commits(Q.Messages(batch, id)) + back
  }

  /** Nothing acknowledged is lost. */
  ghost predicate Lossless(batches: seq<Q.Snapshot>, log: seq<Record>) {
    forall b <- batches :: Fed(b, log)
  }

  /** A queue, if there is one, whose acknowledged input is all in the log. */
  ghost predicate QueueOk(q: Q.KernelInputQueue?, log: seq<Record>)
    reads q
  {
    q != null ==> q.Valid() && Lossless(q.batches, log)
  }

  /** A queued follow-up repeats an identity of the queue or of the log. */
  predicate Clogs(followUps: seq<Message>, log: seq<Record>) {
    Replay(log).Some? && !Q.Committable(Replay(log).value.messageIds, followUps)
  }

  predicate Clogged(q: Q.KernelInputQueue?, log: seq<Record>)
    reads q
  {
    q != null && Clogs(q.followUps, log)
  }

  lemma FedLater(b: Q.Snapshot, log: seq<Record>, log': seq<Record>)
    requires Fed(b, log) && log <= log'
    ensures Fed(b, log')
  {
    hide Q.Commits, Q.Messages;
    var id: nat, front, back :| FedAt(b, log, id, front, back);
    var more := log'[|log|..];
    assert log' == log + more;
    assert FedAt(b, log', id, front, back + more);
  }

  lemma LosslessLater(batches: seq<Q.Snapshot>, log: seq<Record>, log': seq<Record>)
    requires Lossless(batches, log) && log <= log'
    ensures Lossless(batches, log')
  {
    forall b <- batches ensures Fed(b, log') {
      FedLater(b, log, log');
    }
  }

  lemma LosslessMore(batches: seq<Q.Snapshot>, log: seq<Record>, b: Q.Snapshot, id: nat)
    requires Lossless(batches, log)
    ensures Lossless(batches + [b], log + Q.Commits(Q.Messages(b, id)))
  {
    hide Q.Commits, Q.Messages;
    var log' := log + Q.Commits(Q.Messages(b, id));
    LosslessLater(batches, log, log');
    assert FedAt(b, log', id, log, []);
  }

  /** Once clogged, a queue stays clogged as long as nothing is taken from it. */
  lemma ClogsLater(followUps: seq<Message>, log: seq<Record>, followUps': seq<Message>, log': seq<Record>)
    requires Clogs(followUps, log) && followUps <= followUps' && log <= log' && Replay(log').Some?
    ensures Clogs(followUps', log')
  {
    hide Q.Committable;
    Q.IdsKept(log, log');
    if Q.Committable(Replay(log').value.messageIds, followUps') {
      Q.CommittableLess(Replay(log).value.messageIds, followUps, Replay(log').value.messageIds, followUps');
    }
  }

  lemma {:induction false} CommitsArePlain(ms: seq<Message>)
    requires forall m <- ms :: m.User?
    ensures Plain(Q.Commits(ms)) && Answered(Q.Commits(ms)) == []
    decreases |ms|
  {
    if ms != [] {
      var r := MessageCommitted(ms[0]);
      assert ms[0] in ms && forall m <- ms[1..] :: m in ms;
      CommitsArePlain(ms[1..]);
      AnsweredAppend([r], Q.Commits(ms[1..]));
      assert Answered([r]) == [] by { assert [r][..0] == []; }
    }
  }

  lemma MessagesAreUsers(s: Q.Snapshot, id: nat)
    requires forall m <- s.followUps :: m.User?
    ensures forall m <- Q.Messages(s, id) :: m.User?
  {
  }

  /** How often a log commits a message under `id`. */
  function CommitCount(log: seq<Record>, id: nat): nat {
    if log == [] then 0
    else
      var last := log[|log| - 1];
      CommitCount(log[..|log| - 1], id) + if last.MessageCommitted? && last.message.id == id then 1 else 0
  }

  lemma {:induction false} CommittedAtMostOnce(log: seq<Record>, id: nat)
    requires Replay(log).Some?
    ensures CommitCount(log, id) <= 1
    ensures CommitCount(log, id) == 1 ==> id in Replay(log).value.messageIds
  {
    if |log| == 1 {
      assert log[..0] == [];
    } else {
      var front, r := log[..|log| - 1], log[|log| - 1];
      CommittedAtMostOnce(front, id);
      StepIds(Replay(front).value, r);
    }
  }

  lemma StepIds(s: State, r: Record)
    requires Apply(s, r).Some?
    ensures s.messageIds <= Apply(s, r).value.messageIds
    ensures r.MessageCommitted? ==> r.message.id !in s.messageIds && r.message.id in Apply(s, r).value.messageIds
  {
  }

  lemma {:induction false} CommitCounted(log: seq<Record>, m: Message)
    requires MessageCommitted(m) in log
    ensures CommitCount(log, m.id) > 0
  {
    if log[|log| - 1] != MessageCommitted(m) {
      assert MessageCommitted(m) in log[..|log| - 1];
      CommitCounted(log[..|log| - 1], m);
    }
  }

  lemma {:induction false} CommitsHold(ms: seq<Message>, m: Message)
    requires m in ms
    ensures MessageCommitted(m) in Q.Commits(ms)
    decreases |ms|
  {
    if m != ms[0] {
      CommitsHold(ms[1..], m);
    }
  }

  /** An acknowledged follow-up is in the log exactly once. */
  lemma AcknowledgedExactlyOnce(batches: seq<Q.Snapshot>, log: seq<Record>, b: Q.Snapshot, m: Message)
    requires Lossless(batches, log) && Replay(log).Some? && b in batches && m in b.followUps
    ensures MessageCommitted(m) in log && CommitCount(log, m.id) == 1
  {
    assert Fed(b, log);
    hide Replay, Q.Commits;
    var id: nat, front, back :| FedAt(b, log, id, front, back);
    CommitsHold(Q.Messages(b, id), m);
    CommitCounted(log, m);
    CommittedAtMostOnce(log, m.id);
  }

  /** The text holds every steering text as a line of its own, in order, and nothing else. */
  predicate HoldsLines(text: Bytes, texts: seq<Bytes>) {
    && |text| + 1 == Q.SteeringBytes(texts)
    && forall i :: 0 <= i < |texts| ==>
         var start := Q.SteeringBytes(texts[..i]);
         && start + |texts[i]| <= |text| && text[start..start + |texts[i]|] == texts[i]
         && (start + |texts[i]| < |text| ==> text[start + |texts[i]|] == 10)
  }

  predicate SteeringAt(log: seq<Record>, at: nat, texts: seq<Bytes>) {
    && at < |log| && log[at].MessageCommitted? && log[at].message.User? && |log[at].message.content| == 1
    && log[at].message.content[0].Text? && HoldsLines(log[at].message.content[0].text, texts)
  }

  /** The batch stands in the log from `at`: its steering as one message, then its follow-ups as they were queued. */
  predicate StandsAt(b: Q.Snapshot, log: seq<Record>, at: nat) {
    var h := if b.steering == [] then 0 else 1;
    && at + h + |b.followUps| <= |log| && (h == 1 ==> SteeringAt(log, at, b.steering))
    && forall j :: 0 <= j < |b.followUps| ==> log[at + h + j] == MessageCommitted(b.followUps[j])
  }

  lemma LinesHeld(texts: seq<Bytes>)
    requires texts != []
    ensures HoldsLines(Q.Lines(texts), texts)
  {
    hide Q.Lines, Q.SteeringBytes;
    Q.LineAt(texts, 0);
    forall i | 0 <= i < |texts|
      ensures
        var start := Q.SteeringBytes(texts[..i]);
        && start + |texts[i]| <= |Q.Lines(texts)| && Q.Lines(texts)[start..start + |texts[i]|] == texts[i]
        && (start + |texts[i]| < |Q.Lines(texts)| ==> Q.Lines(texts)[start + |texts[i]|] == 10)
    {
      Q.LineAt(texts, i);
    }
  }

  lemma {:induction false} CommitAt(ms: seq<Message>, j: nat)
    requires j < |ms|
    ensures |Q.Commits(ms)| == |ms| && Q.Commits(ms)[j] == MessageCommitted(ms[j])
    decreases |ms|
  {
    if j > 0 {
      CommitAt(ms[1..], j - 1);
    } else if |ms| > 1 {
      CommitAt(ms[1..], 0);
    }
  }

  lemma FedStands(b: Q.Snapshot, log: seq<Record>, id: nat, front: seq<Record>, back: seq<Record>)
    requires FedAt(b, log, id, front, back)
    ensures StandsAt(b, log, |front|)
  {
    hide Q.Commits, Q.Lines, HoldsLines;
    var ms, h := Q.Messages(b, id), if b.steering == [] then 0 else 1;
    if ms != [] {
      CommitAt(ms, 0);
    }
    if h == 1 {
      LinesHeld(b.steering);
      assert log[|front|] == Q.Commits(ms)[0] == MessageCommitted(User(id, [Text(Q.Lines(b.steering))]));
    }
    forall j | 0 <= j < |b.followUps| ensures log[|front| + h + j] == MessageCommitted(b.followUps[j]) {
      CommitAt(ms, h + j);
      assert ms[h + j] == b.followUps[j];
    }
  }

  /** Everything acknowledged stands in the log, in the order in which it was queued. */
  lemma AcknowledgedInOrder(batches: seq<Q.Snapshot>, log: seq<Record>, b: Q.Snapshot)
    requires Lossless(batches, log) && b in batches
    ensures exists at: nat :: StandsAt(b, log, at)
  {
    assert Fed(b, log);
    hide FedAt, StandsAt;
    var id: nat, front, back :| FedAt(b, log, id, front, back);
    FedStands(b, log, id, front, back);
  }

  // -------------------------------------------- written but not acknowledged

  /** A written snapshot with follow-ups that is still queued is refused ever after, whatever arrives behind it. */
  lemma UnacknowledgedClogs(log: seq<Record>, s: Q.Snapshot, id: nat, followUps: seq<Message>, log': seq<Record>)
    requires Replay(log).Some? && (forall m <- s.followUps :: m.User?) && s.followUps != []
    requires log + Q.Commits(Q.Messages(s, id)) <= log' && Replay(log + Q.Commits(Q.Messages(s, id))).Some? && Replay(log').Some?
    requires s.followUps <= followUps
    ensures Clogs(followUps, log')
  {
    var ms := Q.Messages(s, id);
    var written := log + Q.Commits(ms);
    MessagesAreUsers(s, id);
    assert log != [];
    hide Replay, Q.Commits;
    SplitReplay(log, Q.Commits(ms));
    Q.CommitsAccepted(Replay(log).value, ms);
    var m := s.followUps[0];
    assert ms[|ms| - |s.followUps|] == m && m in ms && m.id in Q.Identities(ms);
    assert m in followUps;
    Q.IdsKept(written, log');
  }

  lemma SplitReplay(log: seq<Record>, rs: seq<Record>)
    requires Replay(log).Some? && Replay(log + rs).Some?
    ensures ApplyAll(Replay(log).value, rs) == Replay(log + rs)
  {
    assert log != [];
    ReplayAppend(log, rs);
  }

  /** Steering alone is committed a second time: the same text again, under another identity. */
  lemma SteeringTwice(log: seq<Record>, steering: seq<Bytes>, id: nat, again: nat)
    requires Replay(log).Some? && steering != [] && id != again
    requires id !in Replay(log).value.messageIds && again !in Replay(log).value.messageIds
    ensures
      var rs := Q.Commits(Q.Messages(Q.Snapshot([], steering), id));
      var rs' := Q.Commits(Q.Messages(Q.Snapshot([], steering), again));
      && rs == [MessageCommitted(User(id, [Text(Q.Lines(steering))]))]
      && rs' == [MessageCommitted(User(again, [Text(Q.Lines(steering))]))]
      && Replay(log + rs).Some? && Replay(log + rs + rs').Some?
  {
    var m, m' := User(id, [Text(Q.Lines(steering))]), User(again, [Text(Q.Lines(steering))]);
    OneCommit(m);
    OneCommit(m');
    assert Q.Messages(Q.Snapshot([], steering), id) == [m] && Q.Messages(Q.Snapshot([], steering), again) == [m'];
    assert (log + [MessageCommitted(m)])[..|log|] == log;
    var log1 := log + [MessageCommitted(m)];
    assert (log1 + [MessageCommitted(m')])[..|log1|] == log1;
  }

  lemma OneCommit(m: Message)
    ensures Q.Commits([m]) == [MessageCommitted(m)]
  {
    assert [m][1..] == [] && Q.Commits([]) == [];
  }

  const HELLO := User(0, [Text([72, 105])])

  /** The smallest such session: one follow-up, written and still queued. */
  lemma OneUnacknowledged()
    ensures Replay([SessionCreated, MessageCommitted(HELLO)]).Some?
    ensures !Clogs([HELLO], [SessionCreated]) && Clogs([HELLO], [SessionCreated, MessageCommitted(HELLO)])
  {
    var log := [SessionCreated];
    assert Replay(log) == Some(Created);
    assert (log + [MessageCommitted(HELLO)])[..1] == log;
    assert log + [MessageCommitted(HELLO)] == [SessionCreated, MessageCommitted(HELLO)];
    assert Q.Committable(Created.messageIds, [HELLO]);
    assert HELLO in [HELLO];
  }
}

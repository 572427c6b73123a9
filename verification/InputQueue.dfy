/**
 The kernel's input queue: follow-up messages and steering texts enqueued by hosts
 at any time, and one consumer that takes a snapshot, commits it to the log, and
 only then acknowledges it.  `accepted` and `batches` record the history of both
 streams.
*/
module InputQueue {
  import opened Basics
  import opened SessionLog

  /** Bytes a list of steering texts is charged: each text and one separator. */
  function SteeringBytes(texts: seq<Bytes>): nat {
    if texts == [] then 0 else SteeringBytes(texts[..|texts| - 1]) + |texts[|texts| - 1]| + 1
  }

  datatype Snapshot = Snapshot(followUps: seq<Message>, steering: seq<Bytes>)

  const NOTHING := Snapshot([], [])

  function Join(a: Snapshot, b: Snapshot): Snapshot {
    Snapshot(a.followUps + b.followUps, a.steering + b.steering)
  }

  /** Everything in a list of snapshots, in order. */
  function Total(batches: seq<Snapshot>): Snapshot {
    if batches == [] then NOTHING else Join(Total(batches[..|batches| - 1]), batches[|batches| - 1])
  }

  /** Both streams of `a` are prefixes of those of `b`. */
  predicate Within(a: Snapshot, b: Snapshot) {
    a.followUps <= b.followUps && a.steering <= b.steering
  }

  lemma SteeringSnoc(texts: seq<Bytes>, text: Bytes)
    ensures SteeringBytes(texts + [text]) == SteeringBytes(texts) + |text| + 1
  {
    assert (texts + [text])[..|texts|] == texts;
  }

  lemma {:induction false} SteeringSplit(a: seq<Bytes>, b: seq<Bytes>)
    ensures SteeringBytes(a + b) == SteeringBytes(a) + SteeringBytes(b)
    decreases |b|
  {
    if b == [] {
      assert a + b == a;
    } else {
      assert (a + b)[..|a + b| - 1] == a + b[..|b| - 1];
      SteeringSplit(a, b[..|b| - 1]);
    }
  }

  lemma TotalSnoc(batches: seq<Snapshot>, s: Snapshot)
    ensures Total(batches + [s]) == Join(Total(batches), s)
  {
    assert (batches + [s])[..|batches|] == batches;
  }

  lemma JoinMoves(a: Snapshot, s: Snapshot, rest: Snapshot)
    ensures Join(Join(a, s), rest) == Join(a, Join(s, rest))
  {
    assert a.followUps + s.followUps + rest.followUps == a.followUps + (s.followUps + rest.followUps);
    assert a.steering + s.steering + rest.steering == a.steering + (s.steering + rest.steering);
  }

  lemma WithinTrans(a: Snapshot, b: Snapshot, c: Snapshot)
    requires Within(a, b) && Within(b, c)
    ensures Within(a, c)
  {
  }

  class KernelInputQueue {
    var followUps: seq<Message>
    var steering: seq<Bytes>
    var steeringBytes: nat
    const maxMessages: nat
    const maxSteeringBytes: nat
    /** Everything ever accepted, and the snapshots acknowledged so far. */
    ghost var accepted: Snapshot
    ghost var batches: seq<Snapshot>

    /** What is queued now. */
    ghost function Queued(): Snapshot
      reads this
    {
      Snapshot(followUps, steering)
    }

    ghost predicate Valid()
      reads this
    {
      && |followUps| <= maxMessages && |steering| <= maxMessages && (forall m <- followUps :: m.User?)
      && steeringBytes == SteeringBytes(steering) <= maxSteeringBytes <= USIZE_MAX
      && accepted == Join(Total(batches), Queued())
    }

    constructor (maxMessages: nat, maxSteeringBytes: nat)
      requires 0 < maxMessages <= 1024 && 0 < maxSteeringBytes <= 1024 * 1024
      ensures Valid() && accepted == NOTHING && batches == []
    {
      followUps, steering, steeringBytes := [], [], 0;
      accepted, batches := NOTHING, [];
      this.maxMessages, this.maxSteeringBytes := maxMessages, maxSteeringBytes;
    }

    method EnqueueFollowUp(message: Message) returns (ok: bool)
      requires Valid()
      modifies this
      ensures Valid() && batches == old(batches)
      ensures ok <==> message.User? && |old(followUps)| < maxMessages
      ensures followUps == if ok then old(followUps) + [message] else old(followUps)
      ensures steering == old(steering)
    {
      if !message.User? || |followUps| >= maxMessages {
        return false;
      }
      ghost var more := Snapshot([message], []);
      JoinMoves(Total(batches), Queued(), more);
      assert steering + [] == steering;
      accepted := Join(accepted, more);
      followUps := followUps + [message];
      return true;
    }

    method EnqueueSteering(text: Bytes) returns (ok: bool)
      requires Valid()
      modifies this
      ensures Valid() && batches == old(batches)
      ensures ok <==> |old(steering)| < maxMessages && SteeringBytes(old(steering)) + |text| + 1 <= maxSteeringBytes
      ensures steering == if ok then old(steering) + [text] else old(steering)
      ensures followUps == old(followUps)
    {
      var bytes := steeringBytes + |text| + 1;
      if bytes > USIZE_MAX || |steering| >= maxMessages || bytes > maxSteeringBytes {
        return false;
      }
      SteeringSnoc(steering, text);
      ghost var more := Snapshot([], [text]);
      JoinMoves(Total(batches), Queued(), more);
      assert followUps + [] == followUps;
      accepted := Join(accepted, more);
      steering, steeringBytes := steering + [text], bytes;
      return true;
    }

    method TakeSnapshot() returns (s: Snapshot)
      requires Valid()
      ensures s == Queued() && forall m <- s.followUps :: m.User?
    {
      s := Snapshot(followUps, steering);
    }

    /**
     Removes exactly the snapshot.  It can only fail when the snapshot is no longer
     at the front of both streams; then the follow-ups it still shares with the queue
     are gone and nothing else has changed.
    */
    method Acknowledge(s: Snapshot) returns (ok: bool)
      requires Valid()
      modifies this
      ensures ok <==> Within(s, old(Queued()))
      ensures ok ==> Valid() && accepted == old(accepted) && batches == old(batches) + [s]
      ensures ok ==> old(Queued()) == Join(s, Queued())
      ensures !ok ==> followUps == old(followUps)[Common(old(followUps), s.followUps)..]
      ensures !ok ==> steering == old(steering) && steeringBytes == old(steeringBytes)
      ensures !ok ==> batches == old(batches) && accepted == old(accepted)
    {
      hide Common, Total;
      ok, followUps := PopFront(followUps, s.followUps);
      if !ok {
        return;
      }
      if !(s.steering <= steering) {
        assert followUps == old(followUps)[|s.followUps|..];
        return false;
      }
      ghost var rest := steering[|s.steering|..];
      assert steering == s.steering + rest;
      hide SteeringBytes;
      SteeringSplit(s.steering, rest);
      TotalSnoc(batches, s);
      JoinMoves(Total(batches), s, Snapshot(followUps, rest));
      assert forall m <- followUps :: m in old(followUps);
      batches := batches + [s];
      steering := steering[|s.steering|..];
      steeringBytes := SumBytes(steering);
      return true;
    }
  }

  /** A queue, unless a limit is zero or too large. */
  method NewQueue(maxMessages: nat, maxSteeringBytes: nat) returns (q: Option<KernelInputQueue>)
    ensures q.Some? <==> 0 < maxMessages <= 1024 && 0 < maxSteeringBytes <= 1024 * 1024
    ensures q.Some? ==> fresh(q.value) && q.value.Valid() && q.value.accepted == NOTHING
  {
    if maxMessages == 0 || maxMessages > 1024 || maxSteeringBytes == 0 || maxSteeringBytes > 1024 * 1024 {
      return None;
    }
    var queue := new KernelInputQueue(maxMessages, maxSteeringBytes);
    return Some(queue);
  }

  /** The length of the longest common prefix. */
  function Common(a: seq<Message>, b: seq<Message>): (n: nat)
    ensures n <= |a| && n <= |b|
  {
    if a == [] || b == [] || a[0] != b[0] then 0 else 1 + Common(a[1..], b[1..])
  }

  lemma {:induction false} CommonIs(a: seq<Message>, b: seq<Message>, n: nat)
    requires n <= |a| && n <= |b| && a[..n] == b[..n] && (n == |a| || n == |b| || a[n] != b[n])
    ensures Common(a, b) == n
    decreases n
  {
    if n > 0 {
      assert a[0] == a[..n][0] && b[0] == b[..n][0];
      assert a[1..][..n - 1] == a[..n][1..] && b[1..][..n - 1] == b[..n][1..];
      CommonIs(a[1..], b[1..], n - 1);
    }
  }

  /** Pops the expected messages one by one, stopping at the first that is not at the front. */
  method PopFront(queue: seq<Message>, expected: seq<Message>) returns (ok: bool, rest: seq<Message>)
    ensures ok <==> expected <= queue
    ensures ok ==> queue == expected + rest && Common(queue, expected) == |expected|
    ensures !ok ==> rest == queue[Common(queue, expected)..]
  {
    rest := queue;
    for i := 0 to |expected|
      invariant i <= |queue| && expected[..i] == queue[..i] && rest == queue[i..]
    {
      if rest == [] || rest[0] != expected[i] {
        CommonIs(queue, expected, i);
        return false, rest;
      }
      rest := rest[1..];
    }
    CommonIs(queue, expected, |expected|);
    return true, rest;
  }

  method SumBytes(texts: seq<Bytes>) returns (bytes: nat)
    ensures bytes == SteeringBytes(texts)
  {
    bytes := 0;
    for i := 0 to |texts|
      invariant bytes == SteeringBytes(texts[..i])
    {
      assert texts[..i + 1][..i] == texts[..i];
      bytes := bytes + |texts[i]| + 1;
    }
    assert texts[..|texts|] == texts;
  }

  datatype Input = FollowUp(message: Message) | Steer(text: Bytes)

  /** Whatever hosts enqueue while the kernel is busy: nothing queued moves or leaves. */
  method Arrive(q: KernelInputQueue, arrivals: seq<Input>)
    requires q.Valid()
    modifies q
    ensures q.Valid() && q.batches == old(q.batches) && Within(old(q.Queued()), q.Queued())
  {
    for i := 0 to |arrivals|
      invariant q.Valid() && q.batches == old(q.batches) && Within(old(q.Queued()), q.Queued())
    {
      match arrivals[i] {
        case FollowUp(m) => var _ := q.EnqueueFollowUp(m);
        case Steer(text) => var _ := q.EnqueueSteering(text);
      }
    }
  }

  // --------------------------------------------------------- queued input in the log

  /** Steering texts become one message, a line each. */
  function Lines(texts: seq<Bytes>): Bytes {
    if texts == [] then []
    else if |texts| == 1 then texts[0]
    else Lines(texts[..|texts| - 1]) + [10] + texts[|texts| - 1]
  }

  /** Every text is a line of its own, in order: text `i` starts after the earlier texts and a line feed for each. */
  lemma {:induction false} LineAt(texts: seq<Bytes>, i: nat)
    requires i < |texts|
    ensures |Lines(texts)| + 1 == SteeringBytes(texts)
    ensures
      var start := SteeringBytes(texts[..i]);
      && start + |texts[i]| <= |Lines(texts)| && Lines(texts)[start..start + |texts[i]|] == texts[i]
      && (if i + 1 < |texts| then start + |texts[i]| < |Lines(texts)| && Lines(texts)[start + |texts[i]|] == 10
          else start + |texts[i]| == |Lines(texts)|)
    decreases |texts|
  {
    var n := |texts| - 1;
    var front, last := texts[..n], texts[n];
    if n == 0 {
      assert texts[..0] == [] && front == [];
    } else {
      LineAt(front, if i < n then i else n - 1);
      assert Lines(texts) == Lines(front) + [10] + last;
      if i < n {
        assert front[..i] == texts[..i] && front[i] == texts[i];
        var start := SteeringBytes(texts[..i]);
        assert Lines(texts)[start..start + |texts[i]|] == Lines(front)[start..start + |texts[i]|];
      } else {
        assert Lines(texts)[|Lines(front)| + 1..] == last;
      }
    }
  }

  /** The messages a snapshot is committed as: the steering texts under a new identity, then the follow-ups. */
  function Messages(s: Snapshot, id: nat): seq<Message> {
    (if s.steering == [] then [] else [User(id, [Text(Lines(s.steering))])]) + s.followUps
  }

  function Commits(ms: seq<Message>): seq<Record> {
    if ms == [] then [] else [MessageCommitted(ms[0])] + Commits(ms[1..])
  }

  /** No message identity is in use or repeated. */
  predicate Committable(used: set<nat>, ms: seq<Message>) {
    (forall m <- ms :: m.id !in used) && forall i, j :: 0 <= i < j < |ms| ==> ms[i].id != ms[j].id
  }

  lemma CommittableHead(used: set<nat>, ms: seq<Message>)
    requires ms != []
    ensures Committable(used, ms) <==> ms[0].id !in used && Committable(used + {ms[0].id}, ms[1..])
  {
    if Committable(used, ms) {
      forall m <- ms[1..] ensures m.id !in used + {ms[0].id} {
        var j :| 0 <= j < |ms[1..]| && ms[1..][j] == m;
        assert ms[j + 1] == m && ms[0].id != ms[j + 1].id;
      }
      forall i, j | 0 <= i < j < |ms[1..]| ensures ms[1..][i].id != ms[1..][j].id {
        assert ms[i + 1].id != ms[j + 1].id;
      }
    } else if ms[0].id !in used && Committable(used + {ms[0].id}, ms[1..]) {
      forall m <- ms ensures m.id !in used {
        if m != ms[0] { assert m in ms[1..]; }
      }
      forall i, j | 0 <= i < j < |ms| ensures ms[i].id != ms[j].id {
        assert ms[j] == ms[1..][j - 1] && ms[j] in ms[1..];
        if i > 0 { assert ms[i] == ms[1..][i - 1]; }
      }
    }
  }

  function Identities(ms: seq<Message>): set<nat> {
    set m <- ms :: m.id
  }

  /** The reducer accepts user messages exactly when their identities are new and distinct. */
  lemma {:induction false} CommitsAccepted(s: State, ms: seq<Message>)
    requires forall m <- ms :: m.User?
    ensures ApplyAll(s, Commits(ms)).Some? <==> Committable(s.messageIds, ms)
    ensures Committable(s.messageIds, ms) ==>
              ApplyAll(s, Commits(ms)) == Some(s.(messageIds := s.messageIds + Identities(ms)))
    decreases |ms|
  {
    if ms == [] {
      assert s.messageIds + Identities(ms) == s.messageIds;
    } else {
      hide Committable, Apply;
      CommittableHead(s.messageIds, ms);
      assert Commits(ms)[0] == MessageCommitted(ms[0]) && Commits(ms)[1..] == Commits(ms[1..]) && ms[0] in ms;
      UserApplied(s, ms[0]);
      assert forall m <- ms[1..] :: m in ms;
      CommitsAccepted(s.(messageIds := s.messageIds + {ms[0].id}), ms[1..]);
      HeadIdentity(s.messageIds, ms);
    }
  }

  lemma UserApplied(s: State, m: Message)
    requires m.User?
    ensures Apply(s, MessageCommitted(m)) ==
              if m.id in s.messageIds then None else Some(s.(messageIds := s.messageIds + {m.id}))
  {
  }

  lemma HeadIdentity(used: set<nat>, ms: seq<Message>)
    requires ms != []
    ensures used + {ms[0].id} + Identities(ms[1..]) == used + Identities(ms)
  {
    assert ms == [ms[0]] + ms[1..];
  }

  /** A longer queue or more identities in use only make it harder. */
  lemma CommittableLess(used: set<nat>, ms: seq<Message>, used': set<nat>, ms': seq<Message>)
    requires used <= used' && ms <= ms' && Committable(used', ms')
    ensures Committable(used, ms)
  {
    forall m <- ms ensures m.id !in used {
      assert m in ms';
    }
    forall i, j | 0 <= i < j < |ms| ensures ms[i].id != ms[j].id {
      assert ms[i] == ms'[i] && ms[j] == ms'[j];
    }
  }

  /** A new identity for the steering message does not get in the way of the follow-ups. */
  lemma SteeringFits(used: set<nat>, s: Snapshot, id: nat)
    requires id !in used && id !in Identities(s.followUps)
    ensures Committable(used, Messages(s, id)) <==> Committable(used, s.followUps)
  {
    var ms := Messages(s, id);
    if s.steering != [] {
      assert ms[1..] == s.followUps;
      CommittableHead(used, ms);
      forall m <- s.followUps ensures m.id != id {
        assert m.id in Identities(s.followUps);
      }
    } else {
      assert ms == s.followUps;
    }
  }

  lemma {:induction false} IdsGrow(s: State, rs: seq<Record>)
    requires ApplyAll(s, rs).Some?
    ensures s.messageIds <= ApplyAll(s, rs).value.messageIds
    decreases |rs|
  {
    if rs != [] {
      IdsGrow(Apply(s, rs[0]).value, rs[1..]);
    }
  }

  /** The identities a log uses stay in use. */
  lemma IdsKept(log: seq<Record>, log': seq<Record>)
    requires log <= log' && Replay(log).Some? && Replay(log').Some?
    ensures Replay(log).value.messageIds <= Replay(log').value.messageIds
  {
    var rs := log'[|log|..];
    assert log' == log + rs && log != [];
    ReplayAppend(log, rs);
    IdsGrow(Replay(log).value, rs);
  }
}

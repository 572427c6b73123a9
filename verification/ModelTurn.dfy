/**
 One streamed model turn: the stream grammar validator, the accumulation of
 content blocks under an output budget, the bounded retry loop, and the final
 assistant message.
*/
module ModelTurn {
  import opened Basics
  import opened SessionLog
  import opened ToolRecords

  datatype StopReason = ToolUse | PauseTurn | OtherStop

  datatype Event =
    | Begin
    | TextDelta(text: Bytes)
    | ThinkingDelta(text: Bytes)
    | ToolCallStarted(index: nat, provider: nat, name: nat)
    | ToolArgumentsDelta(index: nat, provider: nat)
    | ToolCallCompleted(index: nat, provider: nat, name: nat, arguments: nat)
    | HostedToolStarted(index: nat, provider: nat, name: nat)
    | HostedToolCompleted(index: nat, provider: nat, name: nat, activity: nat)
    | SourceCitation(source: nat, cites: Option<nat>)
    | Completed(stop: StopReason)
    | Failed(retryable: bool)

  // -------------------------------------------------------------- validator

  datatype Identity = Identity(provider: nat, name: nat)

  datatype Validator = Validator(
    started: bool,
    ended: bool,
    tools: map<nat, Identity>,
    hosted: map<nat, Identity>,
    hostedDone: set<nat>,
    seen: set<nat>)

  const NewValidator := Validator(false, false, map[], map[], {}, {})

  /** Stream grammar: the validator after an accepted event, `None` for a violation. */
  function Validate(v: Validator, e: Event): Option<Validator> {
    if v.ended then None
    else if !v.started then (if e.Begin? then Some(v.(started := true)) else None)
    else
      match e
      case Begin => None
      case TextDelta(_) => Some(v)
      case ThinkingDelta(_) => Some(v)
      case ToolCallStarted(i, p, n) =>
        if i in v.seen then None
        else Some(v.(seen := v.seen + {i}, tools := v.tools[i := Identity(p, n)]))
      case ToolArgumentsDelta(i, p) =>
        if i in v.tools && v.tools[i].provider == p then Some(v) else None
      case ToolCallCompleted(i, p, n, _) =>
        if i in v.tools && v.tools[i] == Identity(p, n) then Some(v.(tools := v.tools - {i})) else None
      case HostedToolStarted(i, p, n) =>
        if i in v.seen then None
        else Some(v.(seen := v.seen + {i}, hosted := v.hosted[i := Identity(p, n)]))
      case HostedToolCompleted(i, p, n, _) =>
        if i in v.hosted && v.hosted[i] == Identity(p, n)
        then Some(v.(hosted := v.hosted - {i}, hostedDone := v.hostedDone + {p})) else None
      case SourceCitation(_, cites) =>
        if cites.Some? && cites.value !in v.hostedDone then None else Some(v)
      case Completed(_) =>
        if v.tools == map[] && v.hosted == map[] then Some(v.(ended := true)) else None
      case Failed(_) => Some(v.(ended := true))
  }

  // ----------------------------------------------------------- accumulation

  datatype Pending =
    | PText(text: Bytes)
    | PThinking(text: Bytes)
    | PTool(id: nat, call: Option<Event>)
    | PHosted(id: nat, done: Option<Event>)
    | PCitation(source: nat, cites: Option<nat>)

  datatype Emitted =
    | Part(index: nat, thinking: bool, text: Bytes)
    | Observation
    | RetryScheduled(attempt: nat)
    | RetryStarted(attempt: nat)

  datatype Attempt = Attempt(
    validator: Validator,
    content: seq<Pending>,
    toolAt: map<nat, nat>,
    hostedAt: map<nat, nat>,
    hostedIds: map<nat, nat>,
    completion: Option<StopReason>,
    bytes: nat,
    emitted: seq<Emitted>)

  function NewAttempt(emitted: seq<Emitted>): Attempt {
    Attempt(NewValidator, [], map[], map[], map[], None, 0, emitted)
  }

  /** Appends a fragment to a last block of its own kind, or opens a new block; returns its index. */
  function AppendText(content: seq<Pending>, delta: Bytes, thinking: bool): (seq<Pending>, nat) {
    var n := |content|;
    if n > 0 && thinking && content[n - 1].PThinking? then
      (content[n - 1 := PThinking(content[n - 1].text + delta)], n - 1)
    else if n > 0 && !thinking && content[n - 1].PText? then
      (content[n - 1 := PText(content[n - 1].text + delta)], n - 1)
    else
      (content + [if thinking then PThinking(delta) else PText(delta)], n)
  }

  function CitationBlock(source: nat, cites: Option<nat>, ids: map<nat, nat>): Option<Block> {
    if cites.None? then Some(Citation(source, None))
    else if cites.value in ids then Some(Citation(source, Some(ids[cites.value])))
    else None
  }

  function ObserveText(a: Attempt, delta: Bytes, thinking: bool, budget: nat): Option<Attempt> {
    if a.bytes + |delta| > budget then None
    else
      var (content, index) := AppendText(a.content, delta, thinking);
      Some(a.(bytes := a.bytes + |delta|, content := content, emitted := a.emitted + [Part(index, thinking, delta)]))
  }

  function ObserveHostedDone(a: Attempt, e: Event, budget: nat, size: Block -> nat): Option<Attempt>
    requires e.HostedToolCompleted?
  {
    if e.index !in a.hostedAt || a.hostedAt[e.index] >= |a.content| then None
    else
      var at := a.hostedAt[e.index];
      if !a.content[at].PHosted? then None
      else
        var id := a.content[at].id;
        var bytes := a.bytes + size(HostedTool(id, e.provider, e.name, e.activity));
        if bytes > budget || e.provider !in a.hostedIds || a.content[at].done.Some? then None
        else Some(a.(bytes := bytes, content := a.content[at := PHosted(id, Some(e))],
                     emitted := a.emitted + [Observation]))
  }

  /** One accepted event; `id` is the identity drawn for a started call. `None` aborts the turn. */
  function Observe(a: Attempt, e: Event, id: nat, hostedNames: set<nat>, budget: nat, size: Block -> nat): Option<Attempt> {
    match e
    case Begin => Some(a)
    case ToolArgumentsDelta(_, _) => Some(a)
    case TextDelta(delta) => ObserveText(a, delta, false, budget)
    case ThinkingDelta(delta) => ObserveText(a, delta, true, budget)
    case ToolCallStarted(i, _, name) =>
      if name in hostedNames || i in a.toolAt then None
      else Some(a.(toolAt := a.toolAt[i := |a.content|], content := a.content + [PTool(id, None)]))
    case ToolCallCompleted(i, _, _, _) =>
      if i !in a.toolAt || a.toolAt[i] >= |a.content| then None
      else
        var at := a.toolAt[i];
        if a.content[at].PTool? && a.content[at].call.None?
        then Some(a.(content := a.content[at := PTool(a.content[at].id, Some(e))])) else None
    case HostedToolStarted(i, p, name) =>
      if name !in hostedNames || i in a.hostedAt || p in a.hostedIds then None
      else Some(a.(hostedAt := a.hostedAt[i := |a.content|], hostedIds := a.hostedIds[p := id],
                   content := a.content + [PHosted(id, None)], emitted := a.emitted + [Observation]))
    case HostedToolCompleted(_, _, _, _) => ObserveHostedDone(a, e, budget, size)
    case SourceCitation(source, cites) =>
      (match CitationBlock(source, cites, a.hostedIds)
       case None => None
       case Some(block) =>
         if a.bytes + size(block) > budget then None
         else Some(a.(bytes := a.bytes + size(block), content := a.content + [PCitation(source, cites)])))
    case Completed(stop) => Some(a.(completion := Some(stop)))
    case Failed(_) => Some(a)
  }

  // -------------------------------------------------- what a stream says

  /** The blocks a stream opens, in order: text runs together, calls and activities stand where they were started. */
  datatype Opened =
    | OText(text: Bytes)
    | OThinking(text: Bytes)
    | OCall(index: nat)
    | OHosted(index: nat)
    | OCitation(source: nat, cites: Option<nat>)

  function Extend(front: seq<Opened>, e: Event): seq<Opened> {
    var n := |front|;
    match e
    case TextDelta(t) =>
      if n > 0 && front[n - 1].OText? then front[n - 1 := OText(front[n - 1].text + t)] else front + [OText(t)]
    case ThinkingDelta(t) =>
      if n > 0 && front[n - 1].OThinking? then front[n - 1 := OThinking(front[n - 1].text + t)] else front + [OThinking(t)]
    case ToolCallStarted(i, _, _) => front + [OCall(i)]
    case HostedToolStarted(i, _, _) => front + [OHosted(i)]
    case SourceCitation(source, cites) => front + [OCitation(source, cites)]
    case _ => front
  }

  function Skeleton(es: seq<Event>): seq<Opened> {
    if es == [] then [] else Extend(Skeleton(es[..|es| - 1]), es[|es| - 1])
  }

  /** Some hosted activity of the message belongs to provider call `p` and has identity `id`. */
  predicate Cited(content: seq<Block>, id: nat, p: nat) {
    exists j :: 0 <= j < |content| && content[j].HostedTool? && content[j].id == id && content[j].provider == p
  }

  /** A block says what the stream said at its place: a call has the name and arguments of its own completion. */
  predicate Says(b: Block, o: Opened, es: seq<Event>, content: seq<Block>) {
    match o
    case OText(t) => b == Text(t)
    case OThinking(t) => b == Thinking(t)
    case OCall(i) => b.ToolCall? && ToolCallCompleted(i, b.provider, b.call.name, b.call.arguments) in es
    case OHosted(i) => b.HostedTool? && HostedToolCompleted(i, b.provider, b.name, b.activity) in es
    case OCitation(source, cites) =>
      && b.Citation? && b.source == source && (cites.None? <==> b.tool.None?)
      && (cites.Some? ==> Cited(content, b.tool.value, cites.value))
  }

  /** The message says exactly what the stream says, block by block. */
  predicate Tells(content: seq<Block>, es: seq<Event>) {
    |content| == |Skeleton(es)| && forall k :: 0 <= k < |content| ==> Says(content[k], Skeleton(es)[k], es, content)
  }

  lemma SkeletonSnoc(es: seq<Event>, e: Event)
    ensures Skeleton(es + [e]) == Extend(Skeleton(es), e)
  {
    assert (es + [e])[..|es|] == es;
  }

  // ---------------------------------------------------- following the stream

  /** A pending block stands for what the stream opened at `k`. */
  ghost predicate Placed(x: Pending, o: Opened, k: nat, a: Attempt, es: seq<Event>) {
    match o
    case OText(t) => x == PText(t)
    case OThinking(t) => x == PThinking(t)
    case OCitation(source, cites) => x == PCitation(source, cites)
    case OCall(i) =>
      && x.PTool? && i in a.toolAt && a.toolAt[i] == k && (x.call.None? <==> i in a.validator.tools)
      && (x.call.Some? ==> x.call.value.ToolCallCompleted? && x.call.value.index == i && x.call.value in es)
    case OHosted(i) =>
      && x.PHosted? && i in a.hostedAt && a.hostedAt[i] == k && (x.done.None? <==> i in a.validator.hosted)
      && (x.done.Some? ==> x.done.value.HostedToolCompleted? && x.done.value.index == i && x.done.value in es)
  }

  ghost predicate AllPlaced(a: Attempt, es: seq<Event>) {
    && |a.content| == |Skeleton(es)|
    && forall k :: 0 <= k < |a.content| ==> Placed(a.content[k], Skeleton(es)[k], k, a, es)
  }

  /** Every index the validator knows has its place. */
  ghost predicate Indexed(a: Attempt, es: seq<Event>) {
    && (forall i <- a.toolAt :: a.toolAt[i] < |Skeleton(es)| && Skeleton(es)[a.toolAt[i]] == OCall(i))
    && (forall i <- a.hostedAt :: a.hostedAt[i] < |Skeleton(es)| && Skeleton(es)[a.hostedAt[i]] == OHosted(i))
    && a.validator.seen == a.toolAt.Keys + a.hostedAt.Keys
    && a.validator.tools.Keys <= a.toolAt.Keys && a.validator.hosted.Keys <= a.hostedAt.Keys
  }

  predicate Last(es: seq<Event>, e: Event) {
    es != [] && es[|es| - 1] == e
  }

  predicate Terminal(e: Event) {
    e.Completed? || e.Failed?
  }

  /** The attempt has seen exactly `es`: its blocks, its indices and its end. */
  ghost predicate Follows(a: Attempt, es: seq<Event>) {
    && AllPlaced(a, es) && Indexed(a, es)
    && (a.validator.ended <==> es != [] && Terminal(es[|es| - 1]))
    && (a.completion.Some? <==> es != [] && es[|es| - 1].Completed?)
    && (a.completion.Some? ==> Last(es, Completed(a.completion.value)))
    && (a.completion.Some? ==> a.validator.tools == map[] && a.validator.hosted == map[])
  }

  lemma PlaceText(a: Attempt, es: seq<Event>, delta: Bytes, thinking: bool)
    requires AllPlaced(a, es)
    ensures
      var e := if thinking then ThinkingDelta(delta) else TextDelta(delta);
      AllPlaced(a.(content := AppendText(a.content, delta, thinking).0), es + [e])
  {
    var e := if thinking then ThinkingDelta(delta) else TextDelta(delta);
    var b := a.(content := AppendText(a.content, delta, thinking).0);
    SkeletonSnoc(es, e);
    hide Skeleton;
    var n := |a.content|;
    if n > 0 {
      assert Placed(a.content[n - 1], Skeleton(es)[n - 1], n - 1, a, es);
    }
    forall k | 0 <= k < |b.content| ensures Placed(b.content[k], Skeleton(es + [e])[k], k, b, es + [e]) {
      if k < n {
        assert Placed(a.content[k], Skeleton(es)[k], k, a, es);
      }
    }
  }

  /** An event that opens nothing and completes nothing leaves every block in place. */
  lemma PlaceSame(a: Attempt, b: Attempt, es: seq<Event>, e: Event)
    requires AllPlaced(a, es) && b.content == a.content && b.toolAt == a.toolAt && b.hostedAt == a.hostedAt
    requires b.validator.tools == a.validator.tools && b.validator.hosted == a.validator.hosted
    requires Skeleton(es + [e]) == Skeleton(es)
    ensures AllPlaced(b, es + [e])
  {
    hide Skeleton;
    forall k | 0 <= k < |b.content| ensures Placed(b.content[k], Skeleton(es)[k], k, b, es + [e]) {
      assert Placed(a.content[k], Skeleton(es)[k], k, a, es);
    }
  }

  /** A new block at the end; its index, if it has one, is new. */
  lemma PlaceNew(a: Attempt, b: Attempt, es: seq<Event>, e: Event, x: Pending, o: Opened)
    requires AllPlaced(a, es) && Indexed(a, es) && b.content == a.content + [x] && Skeleton(es + [e]) == Skeleton(es) + [o]
    requires forall i :: i in a.toolAt ==> i in b.toolAt && b.toolAt[i] == a.toolAt[i]
    requires forall i :: i in a.hostedAt ==> i in b.hostedAt && b.hostedAt[i] == a.hostedAt[i]
    requires forall i :: i in a.toolAt ==> (i in b.validator.tools <==> i in a.validator.tools)
    requires forall i :: i in a.hostedAt ==> (i in b.validator.hosted <==> i in a.validator.hosted)
    requires Placed(x, o, |a.content|, b, es + [e])
    ensures AllPlaced(b, es + [e])
  {
    hide Skeleton;
    forall k | 0 <= k < |b.content| ensures Placed(b.content[k], Skeleton(es + [e])[k], k, b, es + [e]) {
      if k < |a.content| {
        assert Placed(a.content[k], Skeleton(es)[k], k, a, es);
      }
    }
  }

  lemma PlaceCall(a: Attempt, b: Attempt, es: seq<Event>, e: Event)
    requires AllPlaced(a, es) && Indexed(a, es) && e.ToolCallCompleted? && e.index in a.toolAt
    requires a.toolAt[e.index] < |a.content| && a.content[a.toolAt[e.index]].PTool?
    requires b.content == a.content[a.toolAt[e.index] := PTool(a.content[a.toolAt[e.index]].id, Some(e))]
    requires b.toolAt == a.toolAt && b.hostedAt == a.hostedAt
    requires b.validator.tools == a.validator.tools - {e.index} && b.validator.hosted == a.validator.hosted
    ensures AllPlaced(b, es + [e])
  {
    SkeletonSnoc(es, e);
    assert Skeleton(es)[a.toolAt[e.index]] == OCall(e.index);
    hide Skeleton, Indexed;
    var at, sk := a.toolAt[e.index], Skeleton(es);
    forall k | 0 <= k < |b.content| ensures Placed(b.content[k], sk[k], k, b, es + [e]) {
      assert Placed(a.content[k], sk[k], k, a, es);
      assert k != at ==> b.content[k] == a.content[k];
      assert k == at ==> sk[k] == OCall(e.index);
    }
  }

  lemma PlaceActivity(a: Attempt, b: Attempt, es: seq<Event>, e: Event)
    requires AllPlaced(a, es) && Indexed(a, es) && e.HostedToolCompleted? && e.index in a.hostedAt
    requires a.hostedAt[e.index] < |a.content| && a.content[a.hostedAt[e.index]].PHosted?
    requires b.content == a.content[a.hostedAt[e.index] := PHosted(a.content[a.hostedAt[e.index]].id, Some(e))]
    requires b.toolAt == a.toolAt && b.hostedAt == a.hostedAt
    requires b.validator.tools == a.validator.tools && b.validator.hosted == a.validator.hosted - {e.index}
    ensures AllPlaced(b, es + [e])
  {
    SkeletonSnoc(es, e);
    assert Skeleton(es)[a.hostedAt[e.index]] == OHosted(e.index);
    hide Skeleton, Indexed;
    var at, sk := a.hostedAt[e.index], Skeleton(es);
    forall k | 0 <= k < |b.content| ensures Placed(b.content[k], sk[k], k, b, es + [e]) {
      assert Placed(a.content[k], sk[k], k, a, es);
      assert k != at ==> b.content[k] == a.content[k];
      assert k == at ==> sk[k] == OHosted(e.index);
    }
  }

  lemma PlaceStep(a: Attempt, es: seq<Event>, e: Event, v: Validator, id: nat, hostedNames: set<nat>, budget: nat, size: Block -> nat)
    requires AllPlaced(a, es) && Indexed(a, es) && Validate(a.validator, e) == Some(v)
    requires Observe(a, e, id, hostedNames, budget, size).Some?
    ensures AllPlaced(Observe(a, e, id, hostedNames, budget, size).value.(validator := v), es + [e])
  {
    hide AllPlaced, Indexed, Placed, Skeleton;
    SkeletonSnoc(es, e);
    var b := Observe(a, e, id, hostedNames, budget, size).value.(validator := v);
    match e {
      case TextDelta(t) => PlaceTextStep(a, b, es, t, false);
      case ThinkingDelta(t) => PlaceTextStep(a, b, es, t, true);
      case ToolCallStarted(i, _, _) => PlaceStarted(a, b, es, e, PTool(id, None), OCall(i));
      case HostedToolStarted(i, _, _) => PlaceStarted(a, b, es, e, PHosted(id, None), OHosted(i));
      case SourceCitation(source, cites) => PlaceStarted(a, b, es, e, PCitation(source, cites), OCitation(source, cites));
      case ToolCallCompleted(_, _, _, _) => PlaceCall(a, b, es, e);
      case HostedToolCompleted(_, _, _, _) => PlaceActivity(a, b, es, e);
      case _ => PlaceSame(a, b, es, e);
    }
  }

  lemma PlaceTextStep(a: Attempt, b: Attempt, es: seq<Event>, delta: Bytes, thinking: bool)
    requires AllPlaced(a, es) && b.content == AppendText(a.content, delta, thinking).0
    requires b.toolAt == a.toolAt && b.hostedAt == a.hostedAt
    requires b.validator.tools == a.validator.tools && b.validator.hosted == a.validator.hosted
    ensures AllPlaced(b, es + [if thinking then ThinkingDelta(delta) else TextDelta(delta)])
  {
    var e := if thinking then ThinkingDelta(delta) else TextDelta(delta);
    var c := a.(content := b.content);
    PlaceText(a, es, delta, thinking);
    hide Skeleton;
    forall k | 0 <= k < |b.content| ensures Placed(b.content[k], Skeleton(es + [e])[k], k, b, es + [e]) {
      assert Placed(c.content[k], Skeleton(es + [e])[k], k, c, es + [e]);
    }
  }

  predicate Opens(e: Event, x: Pending, o: Opened) {
    match e
    case ToolCallStarted(i, _, _) => o == OCall(i) && x.PTool? && x.call.None?
    case HostedToolStarted(i, _, _) => o == OHosted(i) && x.PHosted? && x.done.None?
    case SourceCitation(source, cites) => o == OCitation(source, cites) && x == PCitation(source, cites)
    case _ => false
  }

  lemma PlaceStarted(a: Attempt, b: Attempt, es: seq<Event>, e: Event, x: Pending, o: Opened)
    requires AllPlaced(a, es) && Indexed(a, es) && b.content == a.content + [x] && Skeleton(es + [e]) == Skeleton(es) + [o]
    requires Validate(a.validator, e) == Some(b.validator)
    requires b.toolAt == if e.ToolCallStarted? then a.toolAt[e.index := |a.content|] else a.toolAt
    requires b.hostedAt == if e.HostedToolStarted? then a.hostedAt[e.index := |a.content|] else a.hostedAt
    requires Opens(e, x, o)
    ensures AllPlaced(b, es + [e])
  {
    hide Skeleton, AllPlaced;
    PlaceNew(a, b, es, e, x, o);
  }

  lemma ExtendKeeps(sk: seq<Opened>, e: Event, k: nat)
    requires k < |sk| && (sk[k].OCall? || sk[k].OHosted?)
    ensures k < |Extend(sk, e)| && Extend(sk, e)[k] == sk[k]
  {
  }

  lemma IndexKept(a: Attempt, b: Attempt, es: seq<Event>, e: Event)
    requires Indexed(a, es)
    requires forall i :: i in b.toolAt <==> i in a.toolAt || (e.ToolCallStarted? && i == e.index)
    requires forall i :: i in b.hostedAt <==> i in a.hostedAt || (e.HostedToolStarted? && i == e.index)
    requires forall i <- a.toolAt :: b.toolAt[i] == a.toolAt[i]
    requires forall i <- a.hostedAt :: b.hostedAt[i] == a.hostedAt[i]
    requires e.ToolCallStarted? ==> b.toolAt[e.index] == |Skeleton(es)|
    requires e.HostedToolStarted? ==> b.hostedAt[e.index] == |Skeleton(es)|
    requires b.validator.seen == a.validator.seen + (if e.ToolCallStarted? || e.HostedToolStarted? then {e.index} else {})
    requires b.validator.tools.Keys <= b.toolAt.Keys && b.validator.hosted.Keys <= b.hostedAt.Keys
    ensures Indexed(b, es + [e])
  {
    SkeletonSnoc(es, e);
    hide Skeleton;
    var sk, sk' := Skeleton(es), Skeleton(es + [e]);
    assert b.validator.seen == b.toolAt.Keys + b.hostedAt.Keys;
    forall i <- b.toolAt ensures b.toolAt[i] < |sk'| && sk'[b.toolAt[i]] == OCall(i) {
      if i in a.toolAt { ExtendKeeps(sk, e, a.toolAt[i]); }
    }
    forall i <- b.hostedAt ensures b.hostedAt[i] < |sk'| && sk'[b.hostedAt[i]] == OHosted(i) {
      if i in a.hostedAt { ExtendKeeps(sk, e, a.hostedAt[i]); }
    }
  }

  lemma IndexStep(a: Attempt, es: seq<Event>, e: Event, v: Validator, id: nat, hostedNames: set<nat>, budget: nat, size: Block -> nat)
    requires AllPlaced(a, es) && Indexed(a, es) && Validate(a.validator, e) == Some(v)
    requires Observe(a, e, id, hostedNames, budget, size).Some?
    ensures Indexed(Observe(a, e, id, hostedNames, budget, size).value.(validator := v), es + [e])
  {
    var b := Observe(a, e, id, hostedNames, budget, size).value.(validator := v);
    assert |a.content| == |Skeleton(es)|;
    hide Skeleton, Placed, AllPlaced, AppendText, CitationBlock;
    assert v.seen == a.validator.seen + (if e.ToolCallStarted? || e.HostedToolStarted? then {e.index} else {});
    assert v.tools.Keys <= b.toolAt.Keys && v.hosted.Keys <= b.hostedAt.Keys;
    IndexKept(a, b, es, e);
  }

  lemma FollowStep(a: Attempt, es: seq<Event>, e: Event, v: Validator, id: nat, hostedNames: set<nat>, budget: nat, size: Block -> nat)
    requires Follows(a, es) && Validate(a.validator, e) == Some(v) && Observe(a, e, id, hostedNames, budget, size).Some?
    ensures Follows(Observe(a, e, id, hostedNames, budget, size).value.(validator := v), es + [e])
  {
    hide AllPlaced, Indexed;
    PlaceStep(a, es, e, v, id, hostedNames, budget, size);
    IndexStep(a, es, e, v, id, hostedNames, budget, size);
  }

  // ------------------------------------------------------------ final message

  /** Hosted identities known from the completed activities of the message itself. */
  function CompletedIds(content: seq<Pending>): map<nat, nat> {
    if content == [] then map[]
    else
      var last := content[|content| - 1];
      var ids := CompletedIds(content[..|content| - 1]);
      if last.PHosted? && last.done.Some? && last.done.value.HostedToolCompleted?
      then ids[last.done.value.provider := last.id] else ids
  }

  function ToBlock(x: Pending, ids: map<nat, nat>): Option<Block> {
    match x
    case PText(t) => Some(Text(t))
    case PThinking(t) => Some(Thinking(t))
    case PTool(id, Some(ToolCallCompleted(_, p, name, arguments))) => Some(ToolCall(Call(id, name, arguments), p))
    case PTool(_, _) => None
    case PHosted(id, Some(HostedToolCompleted(_, p, name, activity))) => Some(HostedTool(id, p, name, activity))
    case PHosted(_, _) => None
    case PCitation(source, cites) => CitationBlock(source, cites, ids)
  }

  /** The message blocks, `None` when a call is incomplete or a citation is unknown. */
  function Blocks(content: seq<Pending>, ids: map<nat, nat>): Option<seq<Block>> {
    if content == [] then Some([])
    else
      match Blocks(content[..|content| - 1], ids)
      case None => None
      case Some(front) =>
        match ToBlock(content[|content| - 1], ids)
        case None => None
        case Some(b) => Some(front + [b])
  }

  // --------------------------------------------------------------- invariant

  /** Bytes a pending block stands for, under the identities known so far. */
  function PendingBytes(x: Pending, ids: map<nat, nat>, size: Block -> nat): nat {
    match x
    case PText(t) => |t|
    case PThinking(t) => |t|
    case PTool(_, _) => 0
    case PHosted(id, Some(HostedToolCompleted(_, p, name, activity))) => size(HostedTool(id, p, name, activity))
    case PHosted(_, _) => 0
    case PCitation(source, cites) =>
      (match CitationBlock(source, cites, ids) case None => 0 case Some(b) => size(b))
  }

  function TotalBytes(content: seq<Pending>, ids: map<nat, nat>, size: Block -> nat): nat {
    if content == [] then 0
    else
      TotalBytes(content[..|content| - 1], ids, size) + PendingBytes(content[|content| - 1], ids, size)
  }

  /** Whether a completed activity of provider call `p` is at `at`. */
  predicate DoneAt(content: seq<Pending>, at: nat, p: nat) {
    && at < |content| && content[at].PHosted? && content[at].done.Some?
    && content[at].done.value.HostedToolCompleted? && content[at].done.value.provider == p
  }

  /** Every activity the validator holds open has its place and identity. */
  ghost predicate OpenTracked(a: Attempt) {
    forall i <- a.validator.hosted ::
      && i in a.hostedAt && a.hostedAt[i] < |a.content| && a.content[a.hostedAt[i]].PHosted?
      && a.validator.hosted[i].provider in a.hostedIds
      && a.hostedIds[a.validator.hosted[i].provider] == a.content[a.hostedAt[i]].id
  }

  /** Identities agree: the validator's open activities, the id map and the content. */
  ghost predicate Tracked(a: Attempt) {
    && OpenTracked(a)
    && (forall at: nat, p: nat :: DoneAt(a.content, at, p) ==> p in a.hostedIds && a.hostedIds[p] == a.content[at].id)
    && (forall p <- a.validator.hostedDone :: exists at: nat :: DoneAt(a.content, at, p))
    && (forall at: nat :: at < |a.content| && a.content[at].PCitation? && a.content[at].cites.Some? ==>
          a.content[at].cites.value in a.validator.hostedDone)
  }

  predicate HasId(x: Pending) {
    x.PTool? || x.PHosted?
  }

  /** Call identities are new to the session and never shared. */
  predicate Identified(content: seq<Pending>, reserved: set<nat>) {
    && (forall i :: 0 <= i < |content| && HasId(content[i]) ==> content[i].id !in reserved)
    && (forall i, j :: 0 <= i < j < |content| && HasId(content[i]) && HasId(content[j]) ==> content[i].id != content[j].id)
  }

  /** Text emitted for a block index since the last retry started. */
  function Shown(emitted: seq<Emitted>, index: nat, thinking: bool): Bytes {
    if emitted == [] then []
    else
      match emitted[|emitted| - 1]
      case RetryStarted(_) => []
      case Part(i, t, text) =>
        Shown(emitted[..|emitted| - 1], index, thinking) + (if i == index && t == thinking then text else [])
      case _ => Shown(emitted[..|emitted| - 1], index, thinking)
  }

  function Held(content: seq<Pending>, index: nat, thinking: bool): Bytes {
    if index >= |content| then []
    else
      match content[index]
      case PText(t) => if thinking then [] else t
      case PThinking(t) => if thinking then t else []
      case _ => []
  }

  /** What was emitted is what is held, block by block. */
  ghost predicate Mirrored(a: Attempt) {
    forall i: nat, thinking: bool :: Shown(a.emitted, i, thinking) == Held(a.content, i, thinking)
  }

  lemma ShownSnoc(emitted: seq<Emitted>, x: Emitted, i: nat, thinking: bool)
    ensures Shown(emitted + [x], i, thinking) ==
              match x
              case RetryStarted(_) => []
              case Part(j, t, text) => Shown(emitted, i, thinking) + (if j == i && t == thinking then text else [])
              case _ => Shown(emitted, i, thinking)
  {
    assert (emitted + [x])[..|emitted|] == emitted;
  }

  lemma MirrorText(a: Attempt, delta: Bytes, thinking: bool)
    requires Mirrored(a)
    ensures
      var (content, index) := AppendText(a.content, delta, thinking);
      Mirrored(a.(content := content, emitted := a.emitted + [Part(index, thinking, delta)]))
  {
    var (content, index) := AppendText(a.content, delta, thinking);
    forall i: nat, t: bool
      ensures Shown(a.emitted + [Part(index, thinking, delta)], i, t) == Held(content, i, t)
    {
      ShownSnoc(a.emitted, Part(index, thinking, delta), i, t);
      assert Shown(a.emitted, i, t) == Held(a.content, i, t);
    }
  }

  lemma MirrorStep(a: Attempt, e: Event, id: nat, hostedNames: set<nat>, budget: nat, size: Block -> nat)
    requires Mirrored(a) && Observe(a, e, id, hostedNames, budget, size).Some?
    ensures Mirrored(Observe(a, e, id, hostedNames, budget, size).value)
  {
    hide Shown;
    match e {
      case TextDelta(delta) => MirrorText(a, delta, false);
      case ThinkingDelta(delta) => MirrorText(a, delta, true);
      case _ =>
        var b := Observe(a, e, id, hostedNames, budget, size).value;
        forall i: nat, t: bool ensures Shown(b.emitted, i, t) == Held(b.content, i, t) {
          ShownSnoc(a.emitted, Observation, i, t);
          assert Shown(a.emitted, i, t) == Held(a.content, i, t);
        }
    }
  }

  // ---------------------------------------------------------- measured bytes

  lemma TotalSnoc(content: seq<Pending>, x: Pending, ids: map<nat, nat>, size: Block -> nat)
    ensures TotalBytes(content + [x], ids, size) == TotalBytes(content, ids, size) + PendingBytes(x, ids, size)
  {
    assert (content + [x])[..|content|] == content;
  }

  lemma {:induction false} TotalUpdate(content: seq<Pending>, at: nat, x: Pending, ids: map<nat, nat>, size: Block -> nat)
    requires at < |content|
    ensures TotalBytes(content[at := x], ids, size) + PendingBytes(content[at], ids, size) ==
              TotalBytes(content, ids, size) + PendingBytes(x, ids, size)
    decreases |content|
  {
    var n := |content| - 1;
    var updated := content[at := x];
    if at == n {
      assert updated[..n] == content[..n];
    } else {
      assert updated[..n] == content[..n][at := x];
      TotalUpdate(content[..n], at, x, ids, size);
    }
  }

  predicate CitesKnown(content: seq<Pending>, ids: map<nat, nat>) {
    forall i :: 0 <= i < |content| && content[i].PCitation? && content[i].cites.Some? ==> content[i].cites.value in ids
  }

  lemma {:induction false} TotalMoreIds(content: seq<Pending>, ids: map<nat, nat>, p: nat, id: nat, size: Block -> nat)
    requires p !in ids && CitesKnown(content, ids)
    ensures TotalBytes(content, ids[p := id], size) == TotalBytes(content, ids, size)
  {
    if content != [] {
      TotalMoreIds(content[..|content| - 1], ids, p, id, size);
    }
  }

  ghost predicate Measured(a: Attempt, budget: nat, size: Block -> nat) {
    a.bytes == TotalBytes(a.content, a.hostedIds, size) && a.bytes <= budget
  }

  lemma TrackedCites(a: Attempt)
    requires Tracked(a)
    ensures CitesKnown(a.content, a.hostedIds)
  {
    forall i | 0 <= i < |a.content| && a.content[i].PCitation? && a.content[i].cites.Some?
      ensures a.content[i].cites.value in a.hostedIds
    {
      var p := a.content[i].cites.value;
      assert p in a.validator.hostedDone;
      var at: nat :| DoneAt(a.content, at, p);
    }
  }

  lemma MeasureText(a: Attempt, delta: Bytes, thinking: bool, budget: nat, size: Block -> nat)
    requires Measured(a, budget, size) && ObserveText(a, delta, thinking, budget).Some?
    ensures Measured(ObserveText(a, delta, thinking, budget).value, budget, size)
  {
    var n := |a.content|;
    var x := if thinking then PThinking(delta) else PText(delta);
    TotalSnoc(a.content, x, a.hostedIds, size);
    if n > 0 && a.content[n - 1].PThinking? {
      TotalUpdate(a.content, n - 1, PThinking(a.content[n - 1].text + delta), a.hostedIds, size);
    } else if n > 0 && a.content[n - 1].PText? {
      TotalUpdate(a.content, n - 1, PText(a.content[n - 1].text + delta), a.hostedIds, size);
    }
  }

  lemma MeasureStep(a: Attempt, e: Event, id: nat, hostedNames: set<nat>, budget: nat, size: Block -> nat)
    requires Measured(a, budget, size) && Tracked(a) && Observe(a, e, id, hostedNames, budget, size).Some?
    ensures Measured(Observe(a, e, id, hostedNames, budget, size).value, budget, size)
  {
    hide TotalBytes;
    match e {
      case TextDelta(delta) => MeasureText(a, delta, false, budget, size);
      case ThinkingDelta(delta) => MeasureText(a, delta, true, budget, size);
      case ToolCallStarted(_, _, _) => TotalSnoc(a.content, PTool(id, None), a.hostedIds, size);
      case ToolCallCompleted(i, _, _, _) =>
        TotalUpdate(a.content, a.toolAt[i], PTool(a.content[a.toolAt[i]].id, Some(e)), a.hostedIds, size);
      case HostedToolStarted(_, p, _) =>
        TrackedCites(a);
        TotalSnoc(a.content, PHosted(id, None), a.hostedIds[p := id], size);
        TotalMoreIds(a.content, a.hostedIds, p, id, size);
      case HostedToolCompleted(i, _, _, _) =>
        TotalUpdate(a.content, a.hostedAt[i], PHosted(a.content[a.hostedAt[i]].id, Some(e)), a.hostedIds, size);
      case SourceCitation(source, cites) => TotalSnoc(a.content, PCitation(source, cites), a.hostedIds, size);
      case _ =>
    }
  }

  // -------------------------------------------------------------- identities

  lemma IdentifyStep(a: Attempt, e: Event, id: nat, hostedNames: set<nat>, budget: nat, size: Block -> nat, reserved: set<nat>)
    requires Identified(a.content, reserved) && Observe(a, e, id, hostedNames, budget, size).Some?
    requires id !in reserved && forall x <- a.content :: HasId(x) ==> x.id != id
    ensures Identified(Observe(a, e, id, hostedNames, budget, size).value.content, reserved)
  {
  }

  lemma DoneAfter(a: Attempt, b: Attempt, at: nat, p: nat)
    requires |a.content| <= |b.content|
    requires forall i :: 0 <= i < |a.content| && a.content[i].PHosted? && a.content[i].done.Some? ==> b.content[i] == a.content[i]
    requires DoneAt(a.content, at, p)
    ensures DoneAt(b.content, at, p)
  {
  }

  /** Nothing about completed activities is lost by an accepted event. */
  lemma KeepsDone(a: Attempt, e: Event, id: nat, hostedNames: set<nat>, budget: nat, size: Block -> nat)
    requires Observe(a, e, id, hostedNames, budget, size).Some?
    ensures
      var b := Observe(a, e, id, hostedNames, budget, size).value;
      && |a.content| <= |b.content|
      && (forall i :: 0 <= i < |a.content| && a.content[i].PHosted? && a.content[i].done.Some? ==> b.content[i] == a.content[i])
      && (forall i :: 0 <= i < |a.content| && a.content[i].PHosted? ==> b.content[i].PHosted? && b.content[i].id == a.content[i].id)
      && (forall i :: 0 <= i < |a.content| && !a.content[i].PCitation? ==> !b.content[i].PCitation?)
  {
  }

  lemma TrackDone(a: Attempt, e: Event, v: Validator, id: nat, hostedNames: set<nat>, budget: nat, size: Block -> nat,
                  at: nat, p: nat)
    requires Tracked(a) && Validate(a.validator, e) == Some(v)
    requires Observe(a, e, id, hostedNames, budget, size).Some?
    requires DoneAt(Observe(a, e, id, hostedNames, budget, size).value.content, at, p)
    ensures
      var b := Observe(a, e, id, hostedNames, budget, size).value;
      p in b.hostedIds && b.hostedIds[p] == b.content[at].id
  {
    if !DoneAt(a.content, at, p) {
      assert e.HostedToolCompleted? && a.hostedAt[e.index] == at && e.provider == p;
      assert e.index in a.validator.hosted;
    }
  }

  lemma TrackFinished(a: Attempt, e: Event, v: Validator, id: nat, hostedNames: set<nat>, budget: nat, size: Block -> nat,
                      p: nat)
    requires Tracked(a) && Validate(a.validator, e) == Some(v) && p in v.hostedDone
    requires Observe(a, e, id, hostedNames, budget, size).Some?
    ensures exists at: nat :: DoneAt(Observe(a, e, id, hostedNames, budget, size).value.content, at, p)
  {
    var b := Observe(a, e, id, hostedNames, budget, size).value;
    KeepsDone(a, e, id, hostedNames, budget, size);
    if p in a.validator.hostedDone {
      var at: nat :| DoneAt(a.content, at, p);
      DoneAfter(a, b, at, p);
    } else {
      assert DoneAt(b.content, a.hostedAt[e.index], p);
    }
  }

  lemma TrackOpen(a: Attempt, e: Event, v: Validator, id: nat, hostedNames: set<nat>, budget: nat, size: Block -> nat)
    requires OpenTracked(a) && Validate(a.validator, e) == Some(v)
    requires Observe(a, e, id, hostedNames, budget, size).Some?
    ensures OpenTracked(Observe(a, e, id, hostedNames, budget, size).value.(validator := v))
  {
  }

  lemma TrackStep(a: Attempt, e: Event, v: Validator, id: nat, hostedNames: set<nat>, budget: nat, size: Block -> nat)
    requires Tracked(a) && Validate(a.validator, e) == Some(v)
    requires Observe(a, e, id, hostedNames, budget, size).Some?
    ensures Tracked(Observe(a, e, id, hostedNames, budget, size).value.(validator := v))
  {
    var b := Observe(a, e, id, hostedNames, budget, size).value.(validator := v);
    KeepsDone(a, e, id, hostedNames, budget, size);
    forall at: nat, p: nat | DoneAt(b.content, at, p) ensures p in b.hostedIds && b.hostedIds[p] == b.content[at].id {
      TrackDone(a, e, v, id, hostedNames, budget, size, at, p);
    }
    forall p <- v.hostedDone ensures exists at: nat :: DoneAt(b.content, at, p) {
      TrackFinished(a, e, v, id, hostedNames, budget, size, p);
    }
    TrackOpen(a, e, v, id, hostedNames, budget, size);
    hide DoneAt, OpenTracked;
  }

  // ----------------------------------------------------------- final message

  lemma {:induction false} CompletedIdsWitness(content: seq<Pending>, p: nat)
    ensures p in CompletedIds(content) ==> exists at: nat :: DoneAt(content, at, p) && content[at].id == CompletedIds(content)[p]
    ensures (exists at: nat :: DoneAt(content, at, p)) ==> p in CompletedIds(content)
  {
    if content != [] {
      var n := |content| - 1;
      CompletedIdsWitness(content[..n], p);
      if p in CompletedIds(content) && !DoneAt(content, n, p) {
        var at: nat :| DoneAt(content[..n], at, p) && content[..n][at].id == CompletedIds(content[..n])[p];
        assert DoneAt(content, at, p);
      }
      forall at: nat | DoneAt(content, at, p) && at != n ensures DoneAt(content[..n], at, p) {}
    }
  }

  lemma {:induction false} BlocksPointwise(content: seq<Pending>, ids: map<nat, nat>)
    requires Blocks(content, ids).Some?
    ensures |Blocks(content, ids).value| == |content|
    ensures forall i :: 0 <= i < |content| ==> ToBlock(content[i], ids) == Some(Blocks(content, ids).value[i])
  {
    if content != [] {
      BlocksPointwise(content[..|content| - 1], ids);
    }
  }

  lemma BlocksFront(content: seq<Pending>, ids: map<nat, nat>) returns (front: seq<Block>)
    requires content != [] && Blocks(content, ids).Some?
    ensures Blocks(content[..|content| - 1], ids) == Some(front) && |front| == |content| - 1
    ensures ToBlock(content[|content| - 1], ids).Some?
    ensures Blocks(content, ids).value == front + [ToBlock(content[|content| - 1], ids).value]
    ensures Blocks(content, ids).value[..|content| - 1] == front
  {
    front := Blocks(content[..|content| - 1], ids).value;
    BlocksPointwise(content[..|content| - 1], ids);
  }

  lemma ContentBytesSnoc(front: seq<Block>, b: Block, size: Block -> nat)
    ensures ContentBytes(front + [b], size) == ContentBytes(front, size) + BlockBytes(b, size)
    ensures DeclaredCalls(front + [b]) == DeclaredCalls(front) + (if b.ToolCall? then [b.call] else [])
  {
    assert (front + [b])[..|front|] == front;
  }

  /** The identity maps agree on what a citation cites. */
  predicate AgreeOn(x: Pending, ids: map<nat, nat>, streamed: map<nat, nat>) {
    x.PCitation? && x.cites.Some? ==>
      x.cites.value in ids && x.cites.value in streamed && ids[x.cites.value] == streamed[x.cites.value]
  }

  lemma OneBlockBytes(x: Pending, ids: map<nat, nat>, streamed: map<nat, nat>, size: Block -> nat)
    requires ToBlock(x, ids).Some? && AgreeOn(x, ids, streamed)
    ensures PendingBytes(x, streamed, size) == BlockBytes(ToBlock(x, ids).value, size)
  {
  }

  /** Measuring while streaming and measuring the committed blocks give the same bytes. */
  lemma {:induction false} BlocksBytes(content: seq<Pending>, ids: map<nat, nat>, streamed: map<nat, nat>, size: Block -> nat)
    requires Blocks(content, ids).Some?
    requires forall i :: 0 <= i < |content| ==> AgreeOn(content[i], ids, streamed)
    ensures ContentBytes(Blocks(content, ids).value, size) == TotalBytes(content, streamed, size)
  {
    if content != [] {
      var n := |content| - 1;
      BlocksBytes(content[..n], ids, streamed, size);
      var front := BlocksFront(content, ids);
      OneBlockBytes(content[n], ids, streamed, size);
      ContentBytesSnoc(front, ToBlock(content[n], ids).value, size);
    }
  }

  function ToolIds(content: seq<Pending>): set<nat> {
    set x <- content | x.PTool? :: x.id
  }

  lemma IdentifiedFront(content: seq<Pending>, reserved: set<nat>)
    requires content != [] && Identified(content, reserved)
    ensures Identified(content[..|content| - 1], reserved)
  {
  }

  lemma {:induction false} CallsFromBlocks(content: seq<Pending>, ids: map<nat, nat>, reserved: set<nat>)
    requires Blocks(content, ids).Some? && Identified(content, reserved)
    ensures NewCalls(DeclaredCalls(Blocks(content, ids).value), reserved, ToolIds(content))
  {
    if content != [] {
      hide ToolIds, NewCalls, Identified;
      var n := |content| - 1;
      IdentifiedFront(content, reserved);
      CallsFromBlocks(content[..n], ids, reserved);
      var front := BlocksFront(content, ids);
      var last := ToBlock(content[n], ids).value;
      ContentBytesSnoc(front, last, _ => 0);
      LastToolId(content, reserved);
      NewCallsSnoc(DeclaredCalls(front), last, reserved, ToolIds(content[..n]), ToolIds(content));
    }
  }

  predicate NewCalls(calls: seq<Call>, reserved: set<nat>, ids: set<nat>) {
    Distinct(calls) && forall c <- calls :: c.id !in reserved && c.id in ids
  }

  lemma NewCallsSnoc(calls: seq<Call>, b: Block, reserved: set<nat>, ids: set<nat>, ids': set<nat>)
    requires NewCalls(calls, reserved, ids) && ids <= ids'
    requires b.ToolCall? ==> b.call.id !in ids && b.call.id in ids' && b.call.id !in reserved
    ensures NewCalls(calls + (if b.ToolCall? then [b.call] else []), reserved, ids')
  {
  }

  lemma LastToolId(content: seq<Pending>, reserved: set<nat>)
    requires content != [] && Identified(content, reserved)
    ensures ToolIds(content[..|content| - 1]) <= ToolIds(content)
    ensures
      var last := content[|content| - 1];
      last.PTool? ==> last.id in ToolIds(content) && last.id !in reserved && last.id !in ToolIds(content[..|content| - 1])
  {
    var n := |content| - 1;
    assert content[n] in content;
    forall x <- content[..n] ensures x in content {}
  }

  datatype Output = Output(content: seq<Block>, calls: seq<Call>, stop: StopReason, bytes: nat)

  function BlockText(content: seq<Block>, index: nat, thinking: bool): Bytes {
    if index >= |content| then []
    else
      match content[index]
      case Text(t) => if thinking then [] else t
      case Thinking(t) => if thinking then t else []
      case _ => []
  }

  /** Folding the emitted fragments since the last retry rebuilds every text block of the message. */
  ghost predicate Replayable(emitted: seq<Emitted>, content: seq<Block>) {
    forall i: nat, thinking: bool :: Shown(emitted, i, thinking) == BlockText(content, i, thinking)
  }

  /** The turn's accounting: bytes, calls, identities and stop reason all fit the committed message. */
  predicate Accounted(out: Output, budget: nat, reserved: set<nat>, size: Block -> nat) {
    && out.content != []
    && ContentBytes(out.content, size) == out.bytes <= budget
    && out.calls == DeclaredCalls(out.content)
    && Distinct(out.calls) && (forall c <- out.calls :: c.id !in reserved)
    && (out.calls != [] <==> out.stop == ToolUse)
  }

  ghost predicate AttemptOk(a: Attempt, budget: nat, size: Block -> nat, reserved: set<nat>) {
    Tracked(a) && Measured(a, budget, size) && Mirrored(a) && Identified(a.content, reserved)
  }

  lemma FinishedAttempt(a: Attempt, budget: nat, size: Block -> nat, reserved: set<nat>)
    requires AttemptOk(a, budget, size, reserved)
    requires Blocks(a.content, CompletedIds(a.content)).Some?
    ensures
      var blocks := Blocks(a.content, CompletedIds(a.content)).value;
      && ContentBytes(blocks, size) == a.bytes
      && |blocks| == |a.content|
      && Distinct(DeclaredCalls(blocks)) && (forall c <- DeclaredCalls(blocks) :: c.id !in reserved)
      && Replayable(a.emitted, blocks)
  {
    hide Blocks, Shown, TotalBytes, ContentBytes, DeclaredCalls, Distinct, Identified, CompletedIds;
    var ids := CompletedIds(a.content);
    var blocks := Blocks(a.content, ids).value;
    forall i | 0 <= i < |a.content| ensures AgreeOn(a.content[i], ids, a.hostedIds) {
      var x := a.content[i];
      if x.PCitation? && x.cites.Some? {
        assert x.cites.value in a.validator.hostedDone;
        CompletedIdsWitness(a.content, x.cites.value);
      }
    }
    BlocksBytes(a.content, ids, a.hostedIds, size);
    CallsFromBlocks(a.content, ids, reserved);
    BlocksPointwise(a.content, ids);
    forall i: nat, thinking: bool ensures Shown(a.emitted, i, thinking) == BlockText(blocks, i, thinking) {
      assert Shown(a.emitted, i, thinking) == Held(a.content, i, thinking);
      if i < |a.content| { assert ToBlock(a.content[i], ids) == Some(blocks[i]); }
    }
  }

  lemma FinishedTells(a: Attempt, es: seq<Event>)
    requires Follows(a, es) && Blocks(a.content, CompletedIds(a.content)).Some?
    ensures Tells(Blocks(a.content, CompletedIds(a.content)).value, es)
  {
    hide Skeleton, Blocks, CompletedIds, Indexed;
    var ids := CompletedIds(a.content);
    var blocks := Blocks(a.content, ids).value;
    BlocksPointwise(a.content, ids);
    forall k | 0 <= k < |blocks| ensures Says(blocks[k], Skeleton(es)[k], es, blocks) {
      assert Placed(a.content[k], Skeleton(es)[k], k, a, es);
      var x := a.content[k];
      if x.PCitation? && x.cites.Some? {
        CompletedIdsWitness(a.content, x.cites.value);
        var at: nat :| DoneAt(a.content, at, x.cites.value) && a.content[at].id == ids[x.cites.value];
        assert blocks[at] == ToBlock(a.content[at], ids).value;
        assert Cited(blocks, ids[x.cites.value], x.cites.value);
      }
    }
  }

  predicate HasCalls(es: seq<Event>) {
    exists e <- es :: e.ToolCallStarted?
  }

  lemma {:induction false} CallsOpened(es: seq<Event>)
    ensures HasCalls(es) <==> exists k :: 0 <= k < |Skeleton(es)| && Skeleton(es)[k].OCall?
  {
    if es != [] {
      var front, e := es[..|es| - 1], es[|es| - 1];
      CallsOpened(front);
      assert es == front + [e];
      var sk, sk' := Skeleton(front), Skeleton(es);
      if HasCalls(front) {
        var k :| 0 <= k < |sk| && sk[k].OCall?;
        ExtendKeeps(sk, e, k);
      } else if e.ToolCallStarted? {
        assert sk'[|sk'| - 1].OCall?;
      }
    }
  }

  lemma {:induction false} DeclaresCalls(content: seq<Block>)
    ensures DeclaredCalls(content) != [] <==> exists k :: 0 <= k < |content| && content[k].ToolCall?
  {
    if content != [] {
      DeclaresCalls(content[..|content| - 1]);
      assert content == content[..|content| - 1] + [content[|content| - 1]];
    }
  }

  lemma TellsCalls(content: seq<Block>, es: seq<Event>)
    requires Tells(content, es)
    ensures DeclaredCalls(content) != [] <==> HasCalls(es)
    ensures content == [] <==> Skeleton(es) == []
  {
    hide Skeleton, DeclaredCalls;
    CallsOpened(es);
    DeclaresCalls(content);
    forall k | 0 <= k < |content| ensures content[k].ToolCall? <==> Skeleton(es)[k].OCall? {
      assert Says(content[k], Skeleton(es)[k], es, content);
    }
  }

  /** The indices of the calls a stream starts, in order. */
  function StartedCalls(es: seq<Event>): seq<nat> {
    if es == [] then []
    else StartedCalls(es[..|es| - 1]) + (if es[|es| - 1].ToolCallStarted? then [es[|es| - 1].index] else [])
  }

  function OpenedCalls(sk: seq<Opened>): seq<nat> {
    if sk == [] then [] else OpenedCalls(sk[..|sk| - 1]) + (if sk[|sk| - 1].OCall? then [sk[|sk| - 1].index] else [])
  }

  lemma {:induction false} OpenedAsStarted(es: seq<Event>)
    ensures OpenedCalls(Skeleton(es)) == StartedCalls(es)
  {
    if es != [] {
      var front, e := es[..|es| - 1], es[|es| - 1];
      OpenedAsStarted(front);
      var sk, sk' := Skeleton(front), Extend(Skeleton(front), e);
      if |sk'| == |sk| + 1 {
        assert sk'[..|sk|] == sk;
      } else if sk != [] {
        assert sk'[..|sk| - 1] == sk[..|sk| - 1];
      }
    }
  }

  /** Each call has the name and arguments of the completion of its own index. */
  predicate CompletedAs(calls: seq<Call>, indices: seq<nat>, es: seq<Event>) {
    |calls| == |indices| && forall k :: 0 <= k < |calls| ==> CompletedFor(calls[k], indices[k], es)
  }

  predicate CompletedFor(c: Call, i: nat, es: seq<Event>) {
    exists e <- es :: e.ToolCallCompleted? && e.index == i && e.name == c.name && e.arguments == c.arguments
  }

  lemma {:induction false} CallsOfBlocks(content: seq<Block>, sk: seq<Opened>, es: seq<Event>, all: seq<Block>)
    requires |content| == |sk| && forall k :: 0 <= k < |content| ==> Says(content[k], sk[k], es, all)
    ensures CompletedAs(DeclaredCalls(content), OpenedCalls(sk), es)
    decreases |content|
  {
    if content != [] {
      var n := |content| - 1;
      CallsOfBlocks(content[..n], sk[..n], es, all);
      assert Says(content[n], sk[n], es, all);
      if sk[n].OCall? {
        var e := ToolCallCompleted(sk[n].index, content[n].provider, content[n].call.name, content[n].call.arguments);
        assert e in es && CompletedFor(content[n].call, sk[n].index, es);
      }
    }
  }

  /** The message declares the calls the stream started, in that order, as each was completed. */
  lemma CallsInOrder(content: seq<Block>, es: seq<Event>)
    requires Tells(content, es)
    ensures CompletedAs(DeclaredCalls(content), StartedCalls(es), es)
  {
    OpenedAsStarted(es);
    CallsOfBlocks(content, Skeleton(es), es, content);
  }

  lemma {:induction false} BlocksTotal(content: seq<Pending>, ids: map<nat, nat>)
    requires forall k :: 0 <= k < |content| ==> ToBlock(content[k], ids).Some?
    ensures Blocks(content, ids).Some?
  {
    if content != [] {
      BlocksTotal(content[..|content| - 1], ids);
    }
  }

  /** A completed stream leaves no call open, so the message can be built. */
  lemma CompletedBlocks(a: Attempt, es: seq<Event>)
    requires Follows(a, es) && Tracked(a) && a.completion.Some?
    ensures Blocks(a.content, CompletedIds(a.content)).Some?
  {
    hide Skeleton, Blocks, CompletedIds, Indexed;
    var ids := CompletedIds(a.content);
    forall k | 0 <= k < |a.content| ensures ToBlock(a.content[k], ids).Some? {
      assert Placed(a.content[k], Skeleton(es)[k], k, a, es);
      var x := a.content[k];
      if x.PCitation? && x.cites.Some? {
        assert x.cites.value in a.validator.hostedDone;
        CompletedIdsWitness(a.content, x.cites.value);
      }
    }
    BlocksTotal(a.content, ids);
  }

  /** The stream ends in a completion whose stop reason fits what was said, and something was said. */
  predicate Concludes(es: seq<Event>) {
    && es != [] && es[|es| - 1].Completed? && Skeleton(es) != []
    && (HasCalls(es) <==> es[|es| - 1].stop == ToolUse)
  }

  /** The finished message says what the stream said, and there is one exactly when the stream concludes. */
  method FinishTurn(a: Attempt, budget: nat, ghost reserved: set<nat>, size: Block -> nat, ghost es: seq<Event>) returns (out: Option<Output>)
    requires AttemptOk(a, budget, size, reserved) && Follows(a, es)
    ensures out.Some? ==> Accounted(out.value, budget, reserved, size) && Replayable(a.emitted, out.value.content)
    ensures out.Some? ==> Tells(out.value.content, es) && Last(es, Completed(out.value.stop))
    ensures out.Some? <==> Concludes(es)
  {
    if a.completion.None? {
      return None;
    }
    CompletedBlocks(a, es);
    hide AttemptOk, Skeleton, Tells, Blocks, CompletedIds, AllPlaced, Indexed, DeclaredCalls;
    var blocks := Blocks(a.content, CompletedIds(a.content));
    if blocks.None? {
      return None;
    }
    FinishedAttempt(a, budget, size, reserved);
    FinishedTells(a, es);
    TellsCalls(blocks.value, es);
    AttemptBudget(a, budget, size, reserved);
    var calls := DeclaredCalls(blocks.value);
    if blocks.value == [] || (calls != []) != (a.completion.value == ToolUse) {
      return None;
    }
    return Some(Output(blocks.value, calls, a.completion.value, a.bytes));
  }

  lemma AttemptBudget(a: Attempt, budget: nat, size: Block -> nat, reserved: set<nat>)
    requires AttemptOk(a, budget, size, reserved)
    ensures a.bytes <= budget
  {
  }

  // ------------------------------------------------------- which streams are read

  /** The validator after a whole stream. */
  function Grammar(es: seq<Event>): Option<Validator> {
    if es == [] then Some(NewValidator)
    else
      match Grammar(es[..|es| - 1])
      case None => None
      case Some(v) => Validate(v, es[|es| - 1])
  }

  /** Client calls use no hosted name, hosted activities only those, each under its own provider identity. */
  predicate Projected(es: seq<Event>, hostedNames: set<nat>) {
    && (forall e <- es :: e.ToolCallStarted? ==> e.name !in hostedNames)
    && (forall e <- es :: e.HostedToolStarted? ==> e.name in hostedNames)
    && (forall i, j :: 0 <= i < j < |es| && es[i].HostedToolStarted? && es[j].HostedToolStarted? ==> es[i].provider != es[j].provider)
  }

  function EventBytes(e: Event, size: Block -> nat): nat {
    match e
    case TextDelta(t) => |t|
    case ThinkingDelta(t) => |t|
    case HostedToolCompleted(_, p, name, activity) => size(HostedTool(0, p, name, activity))
    case SourceCitation(source, cites) => size(Citation(source, if cites.None? then None else Some(0)))
    case _ => 0
  }

  function StreamBytes(es: seq<Event>, size: Block -> nat): nat {
    if es == [] then 0 else StreamBytes(es[..|es| - 1], size) + EventBytes(es[|es| - 1], size)
  }

  /** A block's size does not depend on the identity drawn for it. */
  ghost predicate Uniform(size: Block -> nat) {
    && (forall id, p, name, activity :: size(HostedTool(id, p, name, activity)) == size(HostedTool(0, p, name, activity)))
    && (forall source, id :: size(Citation(source, Some(id))) == size(Citation(source, Some(0))))
  }

  predicate Readable(es: seq<Event>, hostedNames: set<nat>, budget: nat, size: Block -> nat) {
    Grammar(es).Some? && Projected(es, hostedNames) && StreamBytes(es, size) <= budget
  }

  predicate Providers(es: seq<Event>, p: nat) {
    exists e <- es :: e.HostedToolStarted? && e.provider == p
  }

  /** The attempt's validator, identities and bytes are those of the events it has seen. */
  ghost predicate Mirrors(a: Attempt, es: seq<Event>, size: Block -> nat) {
    && Grammar(es) == Some(a.validator)
    && (forall p :: p in a.hostedIds <==> Providers(es, p))
    && (Uniform(size) ==> a.bytes == StreamBytes(es, size))
  }

  lemma ReadSnoc(es: seq<Event>, e: Event, size: Block -> nat)
    ensures Grammar(es + [e]) == match Grammar(es) { case None => None case Some(v) => Validate(v, e) }
    ensures StreamBytes(es + [e], size) == StreamBytes(es, size) + EventBytes(e, size)
    ensures forall p :: Providers(es + [e], p) <==> Providers(es, p) || (e.HostedToolStarted? && e.provider == p)
  {
    assert (es + [e])[..|es|] == es;
  }

  lemma ProjectedSnoc(es: seq<Event>, e: Event, hostedNames: set<nat>)
    ensures Projected(es + [e], hostedNames) <==>
              && Projected(es, hostedNames)
              && (e.ToolCallStarted? ==> e.name !in hostedNames)
              && (e.HostedToolStarted? ==> e.name in hostedNames && !Providers(es, e.provider))
  {
    var all := es + [e];
    if Projected(all, hostedNames) {
      forall x <- es ensures x in all {}
      assert all[|es|] == e && e in all;
      forall i, j | 0 <= i < j < |es| && es[i].HostedToolStarted? && es[j].HostedToolStarted?
        ensures es[i].provider != es[j].provider
      {
        assert all[i] == es[i] && all[j] == es[j];
      }
      forall x <- es ensures !(e.HostedToolStarted? && x.HostedToolStarted? && x.provider == e.provider) {
        var i :| 0 <= i < |es| && es[i] == x;
        assert all[i] == x && all[|es|] == e;
      }
    }
  }

  /** An accepted event changes the attempt as the stream says. */
  lemma MirrorsStep(a: Attempt, es: seq<Event>, e: Event, v: Validator, id: nat, hostedNames: set<nat>, budget: nat, size: Block -> nat)
    requires Mirrors(a, es, size) && Validate(a.validator, e) == Some(v) && Observe(a, e, id, hostedNames, budget, size).Some?
    ensures Mirrors(Observe(a, e, id, hostedNames, budget, size).value.(validator := v), es + [e], size)
  {
    hide Providers, Grammar, StreamBytes, AppendText;
    ReadSnoc(es, e, size);
  }

  /** Why an event is refused: the grammar, the projected names, or the budget, and nothing else. */
  lemma AcceptsExactly(a: Attempt, es: seq<Event>, e: Event, id: nat, hostedNames: set<nat>, budget: nat, size: Block -> nat)
    requires Follows(a, es) && Tracked(a) && Mirrors(a, es, size) && Uniform(size) && Readable(es, hostedNames, budget, size)
    ensures Validate(a.validator, e).Some? && Observe(a, e, id, hostedNames, budget, size).Some? <==>
              Readable(es + [e], hostedNames, budget, size)
  {
    hide Providers, Grammar, StreamBytes, Projected, Skeleton, AppendText;
    ReadSnoc(es, e, size);
    ProjectedSnoc(es, e, hostedNames);
    if Validate(a.validator, e).Some? {
      match e {
        case ToolCallCompleted(i, _, _, _) => OpenCall(a, es, i);
        case HostedToolCompleted(i, _, _, _) => OpenActivity(a, es, i);
        case SourceCitation(_, cites) =>
          if cites.Some? { KnownCitation(a, cites.value); }
        case _ =>
      }
    }
  }

  lemma OpenCall(a: Attempt, es: seq<Event>, i: nat)
    requires Follows(a, es) && i in a.validator.tools
    ensures i in a.toolAt && a.toolAt[i] < |a.content| && a.content[a.toolAt[i]].PTool? && a.content[a.toolAt[i]].call.None?
  {
    hide Skeleton;
    assert Placed(a.content[a.toolAt[i]], Skeleton(es)[a.toolAt[i]], a.toolAt[i], a, es);
  }

  lemma OpenActivity(a: Attempt, es: seq<Event>, i: nat)
    requires Follows(a, es) && Tracked(a) && i in a.validator.hosted
    ensures i in a.hostedAt && a.hostedAt[i] < |a.content| && a.content[a.hostedAt[i]].PHosted? && a.content[a.hostedAt[i]].done.None?
    ensures a.validator.hosted[i].provider in a.hostedIds
  {
    hide Skeleton;
    assert Placed(a.content[a.hostedAt[i]], Skeleton(es)[a.hostedAt[i]], a.hostedAt[i], a, es);
  }

  lemma KnownCitation(a: Attempt, p: nat)
    requires Tracked(a) && p in a.validator.hostedDone
    ensures p in a.hostedIds
  {
    var at: nat :| DoneAt(a.content, at, p);
  }

  // --------------------------------------------------------------------- attempts

  /** What a provider streams, and after how many events the turn is cancelled, late or unable to report, if ever. */
  datatype Stream = Stream(events: seq<Event>, cut: Option<nat>)

  datatype AttemptEnd = Aborted | Ended | FailedWith(retryable: bool)

  /** The attempt read `n` events, the last of which is this failure. */
  predicate FailsAt(st: Stream, n: nat, retryable: bool, hostedNames: set<nat>, budget: nat, size: Block -> nat) {
    && 0 < n <= |st.events| && st.events[n - 1] == Failed(retryable) && (st.cut.None? || st.cut.value >= n)
    && Readable(st.events[..n], hostedNames, budget, size)
  }

  ghost predicate Fails(st: Stream, retryable: bool, hostedNames: set<nat>, budget: nat, size: Block -> nat) {
    exists n: nat :: FailsAt(st, n, retryable, hostedNames, budget, size)
  }

  /** The whole stream is read, and ends in a completion. */
  predicate Ends(st: Stream, hostedNames: set<nat>, budget: nat, size: Block -> nat) {
    && st.cut.None? && st.events != [] && st.events[|st.events| - 1].Completed?
    && Readable(st.events, hostedNames, budget, size)
  }

  ghost predicate EndsAs(end: AttemptEnd, st: Stream, hostedNames: set<nat>, budget: nat, size: Block -> nat) {
    match end
    case Ended => Ends(st, hostedNames, budget, size)
    case FailedWith(retryable) => Fails(st, retryable, hostedNames, budget, size)
    case Aborted =>
      && !Ends(st, hostedNames, budget, size)
      && !Fails(st, true, hostedNames, budget, size) && !Fails(st, false, hostedNames, budget, size)
  }

  lemma {:induction false} ReadablePrefix(es: seq<Event>, n: nat, hostedNames: set<nat>, budget: nat, size: Block -> nat)
    requires n <= |es| && Readable(es, hostedNames, budget, size)
    ensures Readable(es[..n], hostedNames, budget, size)
    decreases |es|
  {
    if n == |es| {
      assert es[..n] == es;
    } else {
      var front, e := es[..|es| - 1], es[|es| - 1];
      assert es == front + [e] && front[..n] == es[..n];
      hide Grammar, Projected, StreamBytes;
      ReadSnoc(front, e, size);
      ProjectedSnoc(front, e, hostedNames);
      ReadablePrefix(front, n, hostedNames, budget, size);
    }
  }

  lemma ReadBefore(es: seq<Event>, n: nat, m: nat, hostedNames: set<nat>, budget: nat, size: Block -> nat)
    requires n <= m <= |es| && Readable(es[..m], hostedNames, budget, size)
    ensures Readable(es[..n], hostedNames, budget, size)
  {
    ReadablePrefix(es[..m], n, hostedNames, budget, size);
    assert es[..m][..n] == es[..n];
  }

  /** A stream that is not readable up to some event neither ends nor fails later. */
  lemma StopsReading(st: Stream, n: nat, hostedNames: set<nat>, budget: nat, size: Block -> nat)
    requires n < |st.events| && (forall i :: 0 <= i < n ==> !st.events[i].Failed?)
    requires st.cut == Some(n) || !Readable(st.events[..n + 1], hostedNames, budget, size)
    ensures EndsAs(Aborted, st, hostedNames, budget, size)
  {
    hide Readable;
    forall k: nat, r: bool ensures !FailsAt(st, k, r, hostedNames, budget, size) {
      if FailsAt(st, k, r, hostedNames, budget, size) {
        assert k >= n + 1;
        ReadBefore(st.events, n + 1, k, hostedNames, budget, size);
      }
    }
    if Ends(st, hostedNames, budget, size) {
      ReadablePrefix(st.events, n + 1, hostedNames, budget, size);
    }
  }

  /** Consumes one provider stream; how it ends depends on the stream alone. */
  method StreamAttempt(st: Stream, emitted: seq<Emitted>, hostedNames: set<nat>, budget: nat,
                       reserved: set<nat>, size: Block -> nat) returns (a: Attempt, end: AttemptEnd)
    requires forall i: nat, thinking: bool :: Shown(emitted, i, thinking) == []
    ensures AttemptOk(a, budget, size, reserved)
    ensures end.Ended? ==> Follows(a, st.events) && st.cut.None?
    ensures Uniform(size) ==> EndsAs(end, st, hostedNames, budget, size)
  {
    hide Follows, Mirrors, AttemptOk, Readable, EndsAs, Uniform;
    a := NewAttempt(emitted);
    Fresh(emitted, hostedNames, budget, size, reserved);
    var events := st.events;
    for k := 0 to |events|
      invariant AttemptOk(a, budget, size, reserved) && Follows(a, events[..k]) && Mirrors(a, events[..k], size)
      invariant (forall i :: 0 <= i < k ==> !events[i].Failed?) && (st.cut.None? || st.cut.value >= k)
      invariant Uniform(size) ==> Readable(events[..k], hostedNames, budget, size)
    {
      assert events[..k + 1] == events[..k] + [events[k]];
      if st.cut == Some(k) {
        StopsReading(st, k, hostedNames, budget, size);
        return a, Aborted;
      }
      var id := FreshId(reserved + set x <- a.content | HasId(x) :: x.id);
      Decides(a, events[..k], events[k], id, hostedNames, budget, size, reserved);
      var v := Validate(a.validator, events[k]);
      var next := Observe(a, events[k], id, hostedNames, budget, size);
      if v.None? || next.None? {
        if Uniform(size) {
          StopsReading(st, k, hostedNames, budget, size);
        }
        return a, Aborted;
      }
      AttemptStep(a, events[k], v.value, id, hostedNames, budget, size, reserved);
      FollowStep(a, events[..k], events[k], v.value, id, hostedNames, budget, size);
      MirrorsStep(a, events[..k], events[k], v.value, id, hostedNames, budget, size);
      a := next.value.(validator := v.value);
      if events[k].Failed? {
        if Uniform(size) {
          FailedThere(st, k + 1, events[k].retryable, hostedNames, budget, size);
        }
        return a, FailedWith(events[k].retryable);
      }
    }
    assert events[..|events|] == events;
    ReadToEnd(a, st, hostedNames, budget, size);
    end := if st.cut.None? && a.validator.ended then Ended else Aborted;
  }

  lemma Fresh(emitted: seq<Emitted>, hostedNames: set<nat>, budget: nat, size: Block -> nat, reserved: set<nat>)
    requires forall i: nat, thinking: bool :: Shown(emitted, i, thinking) == []
    ensures AttemptOk(NewAttempt(emitted), budget, size, reserved)
    ensures Follows(NewAttempt(emitted), []) && Mirrors(NewAttempt(emitted), [], size) && Readable([], hostedNames, budget, size)
  {
  }

  lemma Decides(a: Attempt, es: seq<Event>, e: Event, id: nat, hostedNames: set<nat>, budget: nat, size: Block -> nat, reserved: set<nat>)
    requires AttemptOk(a, budget, size, reserved) && Follows(a, es) && Mirrors(a, es, size)
    requires Uniform(size) ==> Readable(es, hostedNames, budget, size)
    ensures Uniform(size) ==>
              (Validate(a.validator, e).Some? && Observe(a, e, id, hostedNames, budget, size).Some? <==>
               Readable(es + [e], hostedNames, budget, size))
  {
    hide Follows, Mirrors, Readable, Tracked, Measured, Mirrored, Identified, Uniform;
    if Uniform(size) {
      AcceptsExactly(a, es, e, id, hostedNames, budget, size);
    }
  }

  lemma FailedThere(st: Stream, n: nat, retryable: bool, hostedNames: set<nat>, budget: nat, size: Block -> nat)
    requires FailsAt(st, n, retryable, hostedNames, budget, size)
    ensures EndsAs(FailedWith(retryable), st, hostedNames, budget, size)
  {
  }

  /** The stream is over and no failure was seen. */
  lemma ReadToEnd(a: Attempt, st: Stream, hostedNames: set<nat>, budget: nat, size: Block -> nat)
    requires Follows(a, st.events) && (forall i :: 0 <= i < |st.events| ==> !st.events[i].Failed?)
    requires Uniform(size) ==> Readable(st.events, hostedNames, budget, size)
    ensures Uniform(size) ==> EndsAs(if st.cut.None? && a.validator.ended then Ended else Aborted, st, hostedNames, budget, size)
  {
    hide Readable, AllPlaced, Indexed, Uniform;
  }

  lemma AttemptStep(a: Attempt, e: Event, v: Validator, id: nat, hostedNames: set<nat>, budget: nat, size: Block -> nat,
                    reserved: set<nat>)
    requires AttemptOk(a, budget, size, reserved) && Validate(a.validator, e) == Some(v)
    requires id !in reserved && forall x <- a.content :: HasId(x) ==> x.id != id
    requires Observe(a, e, id, hostedNames, budget, size).Some?
    ensures AttemptOk(Observe(a, e, id, hostedNames, budget, size).value.(validator := v), budget, size, reserved)
  {
    var b := Observe(a, e, id, hostedNames, budget, size).value;
    TrackStep(a, e, v, id, hostedNames, budget, size);
    MeasureStep(a, e, id, hostedNames, budget, size);
    MirrorStep(a, e, id, hostedNames, budget, size);
    IdentifyStep(a, e, id, hostedNames, budget, size, reserved);
    forall i: nat, t: bool ensures Shown(b.(validator := v).emitted, i, t) == Held(b.(validator := v).content, i, t) {
      assert Shown(b.emitted, i, t) == Held(b.content, i, t);
    }
  }

  /** The attempt failed in a way that is tried again. */
  ghost predicate Retried(st: Stream, hostedNames: set<nat>, budget: nat, size: Block -> nat) {
    st.cut.None? && Fails(st, true, hostedNames, budget, size)
  }

  /** The stream gives a message. */
  predicate Speaks(st: Stream, hostedNames: set<nat>, budget: nat, size: Block -> nat) {
    Ends(st, hostedNames, budget, size) && Concludes(st.events)
  }

  /** An attempt ends in one way only. */
  lemma OneEnd(st: Stream, r: bool, hostedNames: set<nat>, budget: nat, size: Block -> nat)
    requires Fails(st, r, hostedNames, budget, size)
    ensures !Ends(st, hostedNames, budget, size) && !Fails(st, !r, hostedNames, budget, size)
  {
    var n: nat :| FailsAt(st, n, r, hostedNames, budget, size);
    hide Readable;
    assert st.events[..|st.events|] == st.events;
    if Ends(st, hostedNames, budget, size) {
      NothingAfter(st.events, n, |st.events|, hostedNames, budget, size);
    }
    if Fails(st, !r, hostedNames, budget, size) {
      var m: nat :| FailsAt(st, m, !r, hostedNames, budget, size);
      if m < n {
        NothingAfter(st.events, m, n, hostedNames, budget, size);
      } else if n < m {
        NothingAfter(st.events, n, m, hostedNames, budget, size);
      }
    }
  }

  lemma EndedStops(es: seq<Event>, n: nat)
    requires 0 < n < |es| && Terminal(es[n - 1])
    ensures Grammar(es[..n + 1]).None?
  {
    assert es[..n + 1][..n] == es[..n] && es[..n][..n - 1] == es[..n - 1];
  }

  lemma NothingAfter(es: seq<Event>, n: nat, m: nat, hostedNames: set<nat>, budget: nat, size: Block -> nat)
    requires 0 < n <= m <= |es| && Terminal(es[n - 1]) && Readable(es[..n], hostedNames, budget, size)
    requires Readable(es[..m], hostedNames, budget, size)
    ensures n == m
  {
    if n < m {
      EndedStops(es, n);
      ReadBefore(es, n + 1, m, hostedNames, budget, size);
    }
  }

  /**
   A whole turn over any provider: at most `maxAttempts` provider calls, one more only
   after a failure that may be retried, and a message exactly when the last stream
   gives one.  The message says what that stream said, is fully accounted for, and is
   replayable from what was emitted.
  */
  method StreamTurn(provider: nat -> Stream, hostedNames: set<nat>, budget: nat, maxAttempts: nat,
                    reserved: set<nat>, size: Block -> nat)
    returns (out: Option<Output>, emitted: seq<Emitted>, calls: nat)
    requires maxAttempts > 0
    ensures 1 <= calls <= maxAttempts
    ensures out.Some? ==> Accounted(out.value, budget, reserved, size) && Replayable(emitted, out.value.content)
    ensures out.Some? ==>
              && Tells(out.value.content, provider(calls - 1).events)
              && Last(provider(calls - 1).events, Completed(out.value.stop))
    ensures Uniform(size) ==> (out.Some? <==> Speaks(provider(calls - 1), hostedNames, budget, size))
    ensures Uniform(size) ==> forall k :: 0 <= k < calls - 1 ==> Retried(provider(k), hostedNames, budget, size)
    ensures Uniform(size) && calls < maxAttempts ==> !Retried(provider(calls - 1), hostedNames, budget, size)
  {
    hide AttemptOk, Follows, Uniform, Tells, Concludes, Readable, Fails, Ends;
    var attempt := 0;
    emitted, calls := [], 0;
    while true
      invariant 0 <= attempt == calls < maxAttempts
      invariant forall i: nat, thinking: bool :: Shown(emitted, i, thinking) == []
      invariant Uniform(size) ==> forall k :: 0 <= k < calls ==> Retried(provider(k), hostedNames, budget, size)
      decreases maxAttempts - attempt
    {
      var st := provider(attempt);
      var a, end := StreamAttempt(st, emitted, hostedNames, budget, reserved, size);
      emitted, calls := a.emitted, calls + 1;
      match end {
        case Aborted => return None, emitted, calls;
        case Ended =>
          Exclusive(st, hostedNames, budget, size);
          out := FinishTurn(a, budget, reserved, size, st.events);
          return;
        case FailedWith(retryable) =>
          Exclusive(st, hostedNames, budget, size);
          if !retryable || attempt + 1 >= maxAttempts {
            return None, emitted, calls;
          }
          if st.cut.Some? {
            return None, emitted, calls;
          }
          attempt := attempt + 1;
          forall i: nat, t: bool ensures Shown(emitted + [RetryScheduled(attempt)] + [RetryStarted(attempt)], i, t) == [] {
            ShownSnoc(emitted + [RetryScheduled(attempt)], RetryStarted(attempt), i, t);
          }
          emitted := emitted + [RetryScheduled(attempt)] + [RetryStarted(attempt)];
      }
    }
  }

  lemma Exclusive(st: Stream, hostedNames: set<nat>, budget: nat, size: Block -> nat)
    ensures forall r :: Fails(st, r, hostedNames, budget, size) ==>
              !Ends(st, hostedNames, budget, size) && !Fails(st, !r, hostedNames, budget, size)
  {
    hide Fails, Ends;
    forall r | Fails(st, r, hostedNames, budget, size)
      ensures !Ends(st, hostedNames, budget, size) && !Fails(st, !r, hostedNames, budget, size)
    {
      OneEnd(st, r, hostedNames, budget, size);
    }
  }
}

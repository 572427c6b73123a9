/**
 Which provider streams are well formed, said about the events alone: the incremental
 validator of a turn accepts exactly these.
*/
module StreamGrammar {
  import opened Basics
  import M = ModelTurn

  predicate Starts(e: M.Event, i: nat) {
    (e.ToolCallStarted? || e.HostedToolStarted?) && e.index == i
  }

  /** Some activity of this index was opened. */
  predicate Opened(es: seq<M.Event>, i: nat) {
    exists e <- es :: Starts(e, i)
  }

  predicate CallClosed(es: seq<M.Event>, i: nat) {
    exists e <- es :: e.ToolCallCompleted? && e.index == i
  }

  predicate HostedClosed(es: seq<M.Event>, i: nat) {
    exists e <- es :: e.HostedToolCompleted? && e.index == i
  }

  /** A hosted activity of this provider identity has come to its end. */
  predicate Observed(es: seq<M.Event>, p: nat) {
    exists e <- es :: e.HostedToolCompleted? && e.provider == p
  }

  /** The call of this index is being streamed, under these identities. */
  predicate Streaming(es: seq<M.Event>, i: nat, p: nat, n: nat) {
    M.ToolCallStarted(i, p, n) in es && !CallClosed(es, i)
  }

  predicate Hosting(es: seq<M.Event>, i: nat, p: nat, n: nat) {
    M.HostedToolStarted(i, p, n) in es && !HostedClosed(es, i)
  }

  /** Everything that was opened is closed. */
  predicate AllClosed(es: seq<M.Event>) {
    && (forall e <- es :: e.ToolCallStarted? ==> CallClosed(es, e.index))
    && (forall e <- es :: e.HostedToolStarted? ==> HostedClosed(es, e.index))
  }

  /** The event may follow these ones. */
  ghost predicate MayFollow(es: seq<M.Event>, e: M.Event) {
    if es == [] then e.Begin?
    else
      && !M.Terminal(es[|es| - 1])
      && match e
         case Begin => false
         case ToolCallStarted(i, _, _) => !Opened(es, i)
         case HostedToolStarted(i, _, _) => !Opened(es, i)
         case ToolArgumentsDelta(i, p) => exists n: nat :: Streaming(es, i, p, n)
         case ToolCallCompleted(i, p, n, _) => Streaming(es, i, p, n)
         case HostedToolCompleted(i, p, n, _) => Hosting(es, i, p, n)
         case SourceCitation(_, Some(p)) => Observed(es, p)
         case Completed(_) => AllClosed(es)
         case _ => true
  }

  /** One beginning, one end at most, and everything between opened once, in order and under one identity. */
  ghost predicate WellFormed(es: seq<M.Event>) {
    forall k :: 0 <= k < |es| ==> MayFollow(es[..k], es[k])
  }

  // ------------------------------------------------------- the validator's state

  ghost predicate KnowsCalls(tools: map<nat, M.Identity>, es: seq<M.Event>) {
    forall i, p, n :: Streaming(es, i, p, n) <==> i in tools && tools[i] == M.Identity(p, n)
  }

  ghost predicate KnowsHosted(hosted: map<nat, M.Identity>, es: seq<M.Event>) {
    forall i, p, n :: Hosting(es, i, p, n) <==> i in hosted && hosted[i] == M.Identity(p, n)
  }

  /** What was closed had been opened. */
  ghost predicate Ordered(es: seq<M.Event>) {
    forall i :: CallClosed(es, i) || HostedClosed(es, i) ==> Opened(es, i)
  }

  /** The validator remembers what is open, under which identities, and what was seen and observed. */
  ghost predicate Describes(v: M.Validator, es: seq<M.Event>) {
    && (v.started <==> es != []) && (v.ended <==> es != [] && M.Terminal(es[|es| - 1]))
    && (forall i :: i in v.seen <==> Opened(es, i))
    && KnowsCalls(v.tools, es) && KnowsHosted(v.hosted, es)
    && (forall p :: p in v.hostedDone <==> Observed(es, p))
    && Ordered(es)
  }

  /** How one more event changes what was opened and closed. */
  lemma More(es: seq<M.Event>, e: M.Event)
    ensures forall x :: x in es + [e] <==> x in es || x == e
    ensures forall i :: Opened(es + [e], i) <==> Opened(es, i) || Starts(e, i)
    ensures forall i :: CallClosed(es + [e], i) <==> CallClosed(es, i) || (e.ToolCallCompleted? && e.index == i)
    ensures forall i :: HostedClosed(es + [e], i) <==> HostedClosed(es, i) || (e.HostedToolCompleted? && e.index == i)
    ensures forall p :: Observed(es + [e], p) <==> Observed(es, p) || (e.HostedToolCompleted? && e.provider == p)
  {
  }

  /** Nothing is open exactly when everything was closed. */
  lemma Idle(v: M.Validator, es: seq<M.Event>)
    requires Describes(v, es)
    ensures v.tools == map[] && v.hosted == map[] <==> AllClosed(es)
  {
    hide CallClosed, HostedClosed, Opened, Observed;
    forall e <- es ensures e.ToolCallStarted? ==> (CallClosed(es, e.index) <==> !Streaming(es, e.index, e.provider, e.name)) {}
    forall e <- es ensures e.HostedToolStarted? ==> (HostedClosed(es, e.index) <==> !Hosting(es, e.index, e.provider, e.name)) {}
    if AllClosed(es) {
      forall i ensures i !in v.tools && i !in v.hosted {
        assert i in v.tools ==> Streaming(es, i, v.tools[i].provider, v.tools[i].name);
        assert i in v.hosted ==> Hosting(es, i, v.hosted[i].provider, v.hosted[i].name);
      }
    }
  }

  /** The validator accepts an event exactly when it may follow. */
  lemma AcceptsNext(v: M.Validator, es: seq<M.Event>, e: M.Event)
    requires Describes(v, es)
    ensures M.Validate(v, e).Some? <==> MayFollow(es, e)
  {
    hide CallClosed, HostedClosed, Opened, Observed;
    Idle(v, es);
    if e.ToolArgumentsDelta? && e.index in v.tools {
      assert Streaming(es, e.index, v.tools[e.index].provider, v.tools[e.index].name);
    }
  }

  lemma CallsNext(v: M.Validator, es: seq<M.Event>, e: M.Event)
    requires Describes(v, es) && M.Validate(v, e).Some?
    ensures KnowsCalls(M.Validate(v, e).value.tools, es + [e])
  {
    More(es, e);
    hide CallClosed, HostedClosed, Opened, Observed, KnowsHosted;
    var tools', all := M.Validate(v, e).value.tools, es + [e];
    forall i, p, n ensures Streaming(all, i, p, n) <==> i in tools' && tools'[i] == M.Identity(p, n) {
      assert Streaming(es, i, p, n) <==> i in v.tools && v.tools[i] == M.Identity(p, n);
      StartedIsOpened(es, M.ToolCallStarted(i, p, n), i);
    }
  }

  lemma HostedNext(v: M.Validator, es: seq<M.Event>, e: M.Event)
    requires Describes(v, es) && M.Validate(v, e).Some?
    ensures KnowsHosted(M.Validate(v, e).value.hosted, es + [e])
  {
    More(es, e);
    hide CallClosed, HostedClosed, Opened, Observed, KnowsCalls;
    var hosted', all := M.Validate(v, e).value.hosted, es + [e];
    forall i, p, n ensures Hosting(all, i, p, n) <==> i in hosted' && hosted'[i] == M.Identity(p, n) {
      assert Hosting(es, i, p, n) <==> i in v.hosted && v.hosted[i] == M.Identity(p, n);
      StartedIsOpened(es, M.HostedToolStarted(i, p, n), i);
    }
  }

  lemma OrderedNext(v: M.Validator, es: seq<M.Event>, e: M.Event)
    requires Describes(v, es) && M.Validate(v, e).Some?
    ensures Ordered(es + [e])
  {
    More(es, e);
    hide CallClosed, HostedClosed, Opened, Observed;
    if e.ToolCallCompleted? {
      assert Streaming(es, e.index, e.provider, e.name);
      StartedIsOpened(es, M.ToolCallStarted(e.index, e.provider, e.name), e.index);
    }
    if e.HostedToolCompleted? {
      assert Hosting(es, e.index, e.provider, e.name);
      StartedIsOpened(es, M.HostedToolStarted(e.index, e.provider, e.name), e.index);
    }
  }

  /** ... and then remembers it. */
  lemma DescribesNext(v: M.Validator, es: seq<M.Event>, e: M.Event)
    requires Describes(v, es) && M.Validate(v, e).Some?
    ensures Describes(M.Validate(v, e).value, es + [e])
  {
    CallsNext(v, es, e);
    HostedNext(v, es, e);
    OrderedNext(v, es, e);
    More(es, e);
    hide CallClosed, HostedClosed, Opened, Observed, KnowsCalls, KnowsHosted, Ordered;
  }

  lemma StartedIsOpened(es: seq<M.Event>, e: M.Event, i: nat)
    requires Starts(e, i)
    ensures e in es ==> Opened(es, i)
  {
  }

  lemma {:induction false} GrammarDescribes(es: seq<M.Event>)
    ensures M.Grammar(es).Some? <==> WellFormed(es)
    ensures M.Grammar(es).Some? ==> Describes(M.Grammar(es).value, es)
  {
    if es != [] {
      hide MayFollow, Describes, M.Validate;
      var front, e := es[..|es| - 1], es[|es| - 1];
      GrammarDescribes(front);
      assert es == front + [e];
      assert forall k :: 0 <= k < |front| ==> es[..k] == front[..k] && es[k] == front[k];
      if M.Grammar(front).Some? {
        AcceptsNext(M.Grammar(front).value, front, e);
        if MayFollow(front, e) {
          DescribesNext(M.Grammar(front).value, front, e);
        }
      } else {
        assert exists k :: 0 <= k < |front| && !MayFollow(front[..k], front[k]);
      }
    }
  }

  /** The validator's verdict on a whole stream: it accepts exactly the well-formed ones, and has ended iff they have. */
  lemma AcceptsWellFormed(es: seq<M.Event>)
    ensures M.Grammar(es).Some? <==> WellFormed(es)
    ensures WellFormed(es) ==> (M.Grammar(es).value.ended <==> es != [] && M.Terminal(es[|es| - 1]))
  {
    GrammarDescribes(es);
  }

  /** In a well-formed stream every call that is completed was started before, once, under the same identities. */
  lemma CompletedOnceStarted(es: seq<M.Event>, k: nat)
    requires WellFormed(es) && k < |es| && es[k].ToolCallCompleted?
    ensures M.ToolCallStarted(es[k].index, es[k].provider, es[k].name) in es[..k]
    ensures forall j :: 0 <= j < |es| && es[j].ToolCallCompleted? && es[j].index == es[k].index ==> j == k
  {
    assert MayFollow(es[..k], es[k]);
    forall j | 0 <= j < |es| && es[j].ToolCallCompleted? && es[j].index == es[k].index ensures j == k {
      assert MayFollow(es[..j], es[j]);
    }
  }
}

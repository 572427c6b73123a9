/**
 Routing of progress notifications to bounded inboxes.  Notifications may arrive
 before their token is subscribed and are then held; unsubscribed tokens stay
 retired for a while.  The class invariant holds after every sequence of calls.
*/
module ProgressRouter {
  import opened Basics

  const MAX_TOKEN_BYTES: nat := 256
  const MAX_MESSAGE_BYTES: nat := 4096
  const DEFAULT_MESSAGE := "MCP tool progress"

  /** A token is a number or a text; only its identity and text length matter. */
  datatype Token = Number(n: int) | Name(text: string)

  datatype Note = Note(token: Token, message: Option<string>, meta: Option<nat>, amount: int)

  predicate BoundedToken(t: Token) {
    t.Number? || |t.text| <= MAX_TOKEN_BYTES
  }

  /** Unusable messages are replaced and protocol metadata is dropped. */
  function Cleaned(note: Note): Note {
    var m := note.message;
    note.(message := if m.Some? && (m.value == "" || |m.value| > MAX_MESSAGE_BYTES || '\0' in m.value)
                     then Some(DEFAULT_MESSAGE) else m,
          meta := None)
  }

  /** A message a receiver can show: none, or one that is not empty, not too long and without a zero byte. */
  predicate Usable(message: Option<string>) {
    message.None? || (0 < |message.value| <= MAX_MESSAGE_BYTES && '\0' !in message.value)
  }

  /** Cleaning keeps usable messages, makes all others usable, and touches neither token nor amount. */
  lemma CleanedIs(note: Note)
    ensures Usable(Cleaned(note).message) && Cleaned(note).meta == None
    ensures Cleaned(note).token == note.token && Cleaned(note).amount == note.amount
    ensures Usable(note.message) ==> Cleaned(note).message == note.message
    ensures !Usable(note.message) ==> Cleaned(note).message == Some(DEFAULT_MESSAGE)
  {
  }

  /** A subscription and its channel: everything sent so far, how much the receiver took, and whether it is open. */
  datatype Entry = Entry(sent: seq<Note>, taken: nat, open: bool, overflow: bool, accepted: nat, maxEvents: nat)

  // -------------------------------------------------------------- pending totals

  ghost function Total(m: map<Token, seq<Note>>): nat {
    if m == map[] then 0
    else
      var t :| t in m;
      |m[t]| + Total(m - {t})
  }

  lemma {:induction false} TotalWithout(m: map<Token, seq<Note>>, t: Token)
    requires t in m
    ensures Total(m) == |m[t]| + Total(m - {t})
    decreases |m|
  {
    var u :| u in m && Total(m) == |m[u]| + Total(m - {u});
    if u != t {
      TotalWithout(m - {u}, t);
      TotalWithout(m - {t}, u);
      assert m - {u} - {t} == m - {t} - {u};
    }
  }

  lemma TotalAdd(m: map<Token, seq<Note>>, t: Token, note: Note)
    ensures
      var held := if t in m then m[t] else [];
      Total(m[t := held + [note]]) == Total(m) + 1
  {
    var held := if t in m then m[t] else [];
    var n := m[t := held + [note]];
    TotalWithout(n, t);
    assert n - {t} == m - {t};
    if t in m {
      TotalWithout(m, t);
    } else {
      assert m - {t} == m;
    }
  }

  // ---------------------------------------------------------------------- state

  predicate NoRepeats(s: seq<Token>) {
    forall i, j :: 0 <= i < j < |s| ==> s[i] != s[j]
  }

  /** What an entry has accepted is exactly the first `maxEvents` notes offered to it, in order. */
  predicate EntryOk(e: Entry, offered: seq<Note>) {
    && e.maxEvents > 0 && e.taken <= |e.sent| == e.accepted
    && e.sent == offered[..if |offered| <= e.maxEvents then |offered| else e.maxEvents]
    && (e.overflow <==> |offered| > e.maxEvents)
  }

  /** The last `n` tokens. */
  function Latest(order: seq<Token>, n: nat): seq<Token> {
    if |order| <= n then order else order[|order| - n..]
  }

  function Retire(order: seq<Token>, t: Token): seq<Token> {
    if t in order then order else order + [t]
  }

  function Held(pending: map<Token, seq<Note>>, t: Token): seq<Note> {
    if t in pending then pending[t] else []
  }

  /** The entry after one more note; `None` when its receiver is gone. */
  function Offer(e: Entry, note: Note): Option<Entry> {
    if e.accepted >= e.maxEvents then Some(e.(overflow := true))
    else if !e.open then None
    else Some(e.(accepted := e.accepted + 1, sent := e.sent + [note]))
  }

  lemma OfferKeeps(e: Entry, offered: seq<Note>, note: Note)
    requires EntryOk(e, offered) && Offer(e, note).Some?
    ensures EntryOk(Offer(e, note).value, offered + [note])
  {
  }

  predicate Room(pending: map<Token, seq<Note>>, count: nat, t: Token, maxEntries: nat, maxPending: nat) {
    count < maxPending && (t in pending || |pending| < maxEntries)
  }

  lemma FewerKeys(m: map<Token, seq<Note>>, t: Token)
    ensures |m - {t}| <= |m|
  {
    assert (m - {t}).Keys == m.Keys - {t};
    assert |(m - {t}).Keys| <= |m.Keys|;
  }

  lemma FewerEntries(m: map<Token, Entry>, t: Token)
    ensures |m - {t}| <= |m|
  {
    assert (m - {t}).Keys == m.Keys - {t};
    assert |(m - {t}).Keys| <= |m.Keys|;
  }

  lemma OneMoreKey(m: map<Token, seq<Note>>, t: Token, notes: seq<Note>)
    ensures |m[t := notes]| == if t in m then |m| else |m| + 1
  {
    assert m[t := notes].Keys == m.Keys + {t};
  }

  function Drop<V>(m: map<Token, V>, t: Token): map<Token, V> {
    m - {t}
  }

  // ------------------------------------------------------------------ invariants

  /** Bounded disjoint tables whose pending count is the number of held notes. */
  ghost predicate TablesOk(entries: map<Token, Entry>, pending: map<Token, seq<Note>>, count: nat, retired: set<Token>,
                           maxEntries: nat, maxPending: nat) {
    && |entries| <= maxEntries && |pending| <= maxEntries
    && entries.Keys !! pending.Keys && entries.Keys !! retired && pending.Keys !! retired
    && count == Total(pending) <= maxPending
  }

  /** The retired set mirrors a bounded queue without repeats. */
  predicate RetiredOk(retired: set<Token>, order: seq<Token>, maxPending: nat) {
    NoRepeats(order) && retired == (set t <- order) && |order| <= maxPending
  }

  predicate EntriesOk(entries: map<Token, Entry>, offered: map<Token, seq<Note>>) {
    offered.Keys == entries.Keys && forall t <- entries :: EntryOk(entries[t], offered[t])
  }

  lemma HeldTotal(pending: map<Token, seq<Note>>, t: Token)
    ensures Total(pending) == |Held(pending, t)| + Total(Drop(pending, t))
  {
    if t in pending {
      TotalWithout(pending, t);
    } else {
      assert Drop(pending, t) == pending;
    }
  }

  lemma Subscribed(entries: map<Token, Entry>, pending: map<Token, seq<Note>>, count: nat, retired: set<Token>,
                   maxEntries: nat, maxPending: nat, t: Token, e: Entry)
    requires TablesOk(entries, pending, count, retired, maxEntries, maxPending)
    requires t !in entries && t !in retired && |entries| < maxEntries
    ensures |Held(pending, t)| <= count
    ensures TablesOk(entries[t := e], Drop(pending, t), count - |Held(pending, t)|, retired, maxEntries, maxPending)
  {
    HeldTotal(pending, t);
    FewerKeys(pending, t);
    assert entries[t := e].Keys == entries.Keys + {t} && Drop(pending, t).Keys == pending.Keys - {t};
    assert |entries[t := e].Keys| == |entries.Keys| + 1;
  }

  lemma Updated(entries: map<Token, Entry>, pending: map<Token, seq<Note>>, count: nat, retired: set<Token>,
                maxEntries: nat, maxPending: nat, t: Token, e: Entry)
    requires TablesOk(entries, pending, count, retired, maxEntries, maxPending) && t in entries
    ensures TablesOk(entries[t := e], pending, count, retired, maxEntries, maxPending)
  {
    assert entries[t := e].Keys == entries.Keys;
  }

  lemma KeptBack(entries: map<Token, Entry>, pending: map<Token, seq<Note>>, count: nat, retired: set<Token>,
                 maxEntries: nat, maxPending: nat, t: Token, note: Note)
    requires TablesOk(entries, pending, count, retired, maxEntries, maxPending)
    requires t !in entries && t !in retired && Room(pending, count, t, maxEntries, maxPending)
    ensures TablesOk(entries, pending[t := Held(pending, t) + [note]], count + 1, retired, maxEntries, maxPending)
  {
    TotalAdd(pending, t, note);
    OneMoreKey(pending, t, Held(pending, t) + [note]);
    assert pending[t := Held(pending, t) + [note]].Keys == pending.Keys + {t};
  }

  lemma Removed(entries: map<Token, Entry>, pending: map<Token, seq<Note>>, count: nat, retired: set<Token>, retired': set<Token>,
                maxEntries: nat, maxPending: nat, t: Token)
    requires TablesOk(entries, pending, count, retired, maxEntries, maxPending) && retired' <= retired + {t}
    ensures |Held(pending, t)| <= count
    ensures TablesOk(Drop(entries, t), Drop(pending, t), count - |Held(pending, t)|, retired', maxEntries, maxPending)
  {
    HeldTotal(pending, t);
    FewerKeys(pending, t);
    FewerEntries(entries, t);
    assert Drop(entries, t).Keys == entries.Keys - {t} && Drop(pending, t).Keys == pending.Keys - {t};
  }

  lemma NotHeld(entries: map<Token, Entry>, pending: map<Token, seq<Note>>, count: nat, retired: set<Token>,
                maxEntries: nat, maxPending: nat, t: Token)
    requires TablesOk(entries, pending, count, retired, maxEntries, maxPending) && t in entries
    ensures Held(pending, t) == [] && Drop(pending, t) == pending
  {
  }

  lemma EntrySet(entries: map<Token, Entry>, offered: map<Token, seq<Note>>, t: Token, e: Entry, notes: seq<Note>)
    requires EntriesOk(entries, offered) && EntryOk(e, notes)
    ensures EntriesOk(entries[t := e], offered[t := notes])
  {
  }

  lemma EntryGone(entries: map<Token, Entry>, offered: map<Token, seq<Note>>, t: Token)
    requires EntriesOk(entries, offered)
    ensures EntriesOk(Drop(entries, t), Drop(offered, t))
  {
  }

  lemma EntryAt(entries: map<Token, Entry>, offered: map<Token, seq<Note>>, t: Token)
    requires EntriesOk(entries, offered) && t in entries
    ensures t in offered && EntryOk(entries[t], offered[t])
  {
  }

  lemma NotRetired(entries: map<Token, Entry>, pending: map<Token, seq<Note>>, count: nat, retired: set<Token>,
                   maxEntries: nat, maxPending: nat, t: Token)
    requires TablesOk(entries, pending, count, retired, maxEntries, maxPending)
    ensures t in entries ==> t !in retired
  {
  }

  /** Sends held notes into a fresh channel, which is never full before `maxEvents` of them. */
  method Fill(held: seq<Note>, maxEvents: nat) returns (e: Entry)
    requires maxEvents > 0
    ensures EntryOk(e, held) && e.maxEvents == maxEvents && e.open && e.taken == 0
  {
    var accepted := if |held| <= maxEvents then |held| else maxEvents;
    var sent: seq<Note> := [];
    for i := 0 to accepted
      invariant sent == held[..i]
    {
      assert |sent| < maxEvents;
      sent := sent + [held[i]];
    }
    e := Entry(sent, 0, true, |held| > maxEvents, accepted, maxEvents);
  }

  lemma NothingToDrop(pending: map<Token, seq<Note>>, t: Token)
    ensures t !in pending ==> Drop(pending, t) == pending && Held(pending, t) == []
  {
  }

  lemma RetireOnce(order: seq<Token>, t: Token)
    requires NoRepeats(order)
    ensures NoRepeats(Retire(order, t))
    ensures (set u <- Retire(order, t)) == (set u <- order) + {t}
  {
  }

  lemma Retires(retired: set<Token>, order: seq<Token>, t: Token, maxPending: nat)
    requires RetiredOk(retired, order, maxPending)
    ensures NoRepeats(Retire(order, t)) && (set u <- Retire(order, t)) == retired + {t}
    ensures Retire(order, t) == if t in retired then order else order + [t]
  {
    RetireOnce(order, t);
  }

  /** Forgets the oldest retired tokens until the bound holds. */
  method Expire(retired: set<Token>, order: seq<Token>, maxPending: nat) returns (retired': set<Token>, order': seq<Token>)
    requires NoRepeats(order) && (set u <- order) == retired
    ensures order' == Latest(order, maxPending) && RetiredOk(retired', order', maxPending) && retired' <= retired
  {
    hide NoRepeats;
    retired', order' := retired, order;
    while |order'| > maxPending
      invariant |order'| <= |order| && order' == order[|order| - |order'|..]
      invariant |order'| == |order| || |order'| >= maxPending
      invariant NoRepeats(order') && retired' == (set u <- order') && retired' <= retired
    {
      Forgotten(order');
      retired', order' := retired' - {order'[0]}, order'[1..];
    }
  }

  lemma Forgotten(order: seq<Token>)
    requires order != [] && NoRepeats(order)
    ensures NoRepeats(order[1..]) && (set u <- order[1..]) == (set u <- order) - {order[0]}
  {
    assert order == [order[0]] + order[1..];
    forall i | 0 <= i < |order[1..]| ensures order[1..][i] != order[0] { assert order[1..][i] == order[i + 1]; }
  }

  /** One more note for the inbox of `t`, or the entry removed because its receiver is gone. */
  ghost predicate Delivered(entries: map<Token, Entry>, offered: map<Token, seq<Note>>, entries': map<Token, Entry>,
                            offered': map<Token, seq<Note>>, t: Token, note: Note) {
    t in entries && t in offered &&
    match Offer(entries[t], note)
    case None => entries' == Drop(entries, t) && offered' == Drop(offered, t)
    case Some(e) => entries' == entries[t := e] && offered' == offered[t := offered[t] + [note]]
  }

  class ProgressRouter {
    var entries: map<Token, Entry>
    var pending: map<Token, seq<Note>>
    var pendingCount: nat
    var retired: set<Token>
    var retiredOrder: seq<Token>
    const maxEntries: nat
    const maxPending: nat
    /** Every note offered to a current subscription, held ones first. */
    ghost var offered: map<Token, seq<Note>>

    ghost predicate Valid()
      reads this
    {
      && TablesOk(entries, pending, pendingCount, retired, maxEntries, maxPending)
      && RetiredOk(retired, retiredOrder, maxPending) && EntriesOk(entries, offered)
    }

    constructor (maxEntries: nat, maxPending: nat)
      ensures Valid() && entries == map[] && pending == map[] && retired == {}
      ensures this.maxEntries == maxEntries && this.maxPending == maxPending
    {
      entries, pending, pendingCount, retired, retiredOrder, offered := map[], map[], 0, {}, [], map[];
      this.maxEntries, this.maxPending := maxEntries, maxPending;
    }

    /** Held notes go to the new inbox in order; a zero-capacity channel cannot be made. */
    method Subscribe(token: Token, maxEvents: nat) returns (ok: bool)
      requires Valid() && maxEvents > 0
      modifies this
      ensures Valid() && retired == old(retired)
      ensures ok <==> |old(entries)| < maxEntries && token !in old(entries) && token !in old(retired)
      ensures !ok ==> entries == old(entries) && pending == old(pending) && offered == old(offered)
      ensures ok ==> pending == Drop(old(pending), token) && offered == old(offered)[token := Held(old(pending), token)]
      ensures ok ==> token in entries && entries == old(entries)[token := entries[token]]
      ensures ok ==> entries[token].maxEvents == maxEvents && entries[token].open && entries[token].taken == 0
    {
      hide TablesOk, RetiredOk, EntriesOk, EntryOk, Drop;
      if |entries| >= maxEntries || token in entries || token in retired {
        return false;
      }
      var held := Held(pending, token);
      var e := Fill(held, maxEvents);
      Subscribed(entries, pending, pendingCount, retired, maxEntries, maxPending, token, e);
      EntrySet(entries, offered, token, e, held);
      pending, pendingCount := Drop(pending, token), pendingCount - |held|;
      offered := offered[token := held];
      entries := entries[token := e];
      return true;
    }

    /** A subscribed note is offered to its inbox, an early one is held while there is room, a retired one is dropped. */
    method Route(note: Note)
      requires Valid()
      modifies this
      ensures Valid() && retired == old(retired) && retiredOrder == old(retiredOrder)
      ensures !BoundedToken(note.token) || note.token in old(retired) ==> entries == old(entries) && pending == old(pending)
      ensures BoundedToken(note.token) && note.token in old(entries) ==>
                pending == old(pending) && Delivered(old(entries), old(offered), entries, offered, note.token, Cleaned(note))
      ensures BoundedToken(note.token) && note.token !in old(retired) && note.token !in old(entries) ==>
                && entries == old(entries)
                && pending == if Room(old(pending), old(pendingCount), note.token, maxEntries, maxPending)
                              then old(pending)[note.token := Held(old(pending), note.token) + [Cleaned(note)]]
                              else old(pending)
    {
      hide TablesOk, RetiredOk, EntriesOk, BoundedToken, Cleaned, Delivered, Room, Held;
      if !BoundedToken(note.token) {
        return;
      }
      NotRetired(entries, pending, pendingCount, retired, maxEntries, maxPending, note.token);
      if note.token in retired {
        return;
      }
      if note.token in entries {
        Deliver(note.token, Cleaned(note));
      } else {
        Hold(note.token, Cleaned(note));
      }
    }

    method Hold(t: Token, clean: Note)
      requires Valid() && t !in entries && t !in retired
      modifies this`pending, this`pendingCount
      ensures Valid()
      ensures pending == if Room(old(pending), old(pendingCount), t, maxEntries, maxPending)
                         then old(pending)[t := Held(old(pending), t) + [clean]] else old(pending)
    {
      hide TablesOk, RetiredOk, EntriesOk, Drop;
      if pendingCount >= maxPending {
        return;
      }
      if t !in pending && |pending| >= maxEntries {
        return;
      }
      KeptBack(entries, pending, pendingCount, retired, maxEntries, maxPending, t, clean);
      pending, pendingCount := pending[t := Held(pending, t) + [clean]], pendingCount + 1;
    }

    method Deliver(t: Token, clean: Note)
      requires Valid() && t in entries
      modifies this`entries, this`offered
      ensures Valid() && Delivered(old(entries), old(offered), entries, offered, t, clean)
    {
      hide TablesOk, RetiredOk, EntriesOk, Drop;
      var e := entries[t];
      EntryAt(entries, offered, t);
      if e.accepted >= e.maxEvents || e.open {
        OfferKeeps(e, offered[t], clean);
        EntrySet(entries, offered, t, Offer(e, clean).value, offered[t] + [clean]);
        Updated(entries, pending, pendingCount, retired, maxEntries, maxPending, t, Offer(e, clean).value);
        offered := offered[t := offered[t] + [clean]];
      }
      if e.accepted >= e.maxEvents {
        entries := entries[t := e.(overflow := true)];
      } else if e.open {
        assert |e.sent| - e.taken < e.maxEvents;  // so the channel is never full here
        entries := entries[t := e.(accepted := e.accepted + 1, sent := e.sent + [clean])];
      } else {
        NotHeld(entries, pending, pendingCount, retired, maxEntries, maxPending, t);
        Removed(entries, pending, pendingCount, retired, retired, maxEntries, maxPending, t);
        EntryGone(entries, offered, t);
        entries, offered := Drop(entries, t), Drop(offered, t);
      }
    }

    /** The receiver takes the next note, if one is waiting. */
    method Receive(token: Token) returns (note: Option<Note>)
      requires Valid() && token in entries
      modifies this`entries
      ensures Valid() && token in entries && entries == old(entries)[token := entries[token]]
      ensures entries[token] == old(entries)[token].(taken := entries[token].taken)
      ensures
        var e := old(entries)[token];
        if e.taken < |e.sent| then note == Some(e.sent[e.taken]) && entries[token].taken == e.taken + 1
        else note == None && entries[token] == e
    {
      var e := entries[token];
      if e.taken == |e.sent| {
        return None;
      }
      hide TablesOk, RetiredOk;
      Updated(entries, pending, pendingCount, retired, maxEntries, maxPending, token, e.(taken := e.taken + 1));
      entries := entries[token := e.(taken := e.taken + 1)];
      return Some(e.sent[e.taken]);
    }

    /** The receiver is dropped: its entry stays until the next note for it finds nobody there. */
    method Close(token: Token)
      requires Valid() && token in entries
      modifies this`entries
      ensures Valid() && entries == old(entries)[token := old(entries)[token].(open := false)]
      ensures forall note :: entries[token].accepted < entries[token].maxEvents ==> Offer(entries[token], note).None?
    {
      var e := entries[token];
      hide TablesOk, RetiredOk;
      Updated(entries, pending, pendingCount, retired, maxEntries, maxPending, token, e.(open := false));
      entries := entries[token := e.(open := false)];
    }

    /** The token leaves every table and is remembered as retired, the oldest retired ones being forgotten. */
    method Unsubscribe(token: Token)
      requires Valid()
      modifies this
      ensures Valid()
      ensures entries == Drop(old(entries), token) && pending == Drop(old(pending), token)
      ensures retiredOrder == Latest(Retire(old(retiredOrder), token), maxPending)
    {
      hide TablesOk, EntriesOk, RetiredOk, Latest, NoRepeats, Retire, Drop;
      EntryGone(entries, offered, token);
      ghost var before, early, count, was := entries, pending, pendingCount, retired;
      Removed(before, early, count, was, was + {token}, maxEntries, maxPending, token);
      entries, offered := Drop(entries, token), Drop(offered, token);
      NothingToDrop(pending, token);
      if token in pending {
        pending, pendingCount := Drop(pending, token), pendingCount - |pending[token]|;
      }
      Retires(retired, retiredOrder, token, maxPending);
      if token !in retired {
        retired, retiredOrder := retired + {token}, retiredOrder + [token];
      }
      retired, retiredOrder := Expire(retired, retiredOrder, maxPending);
      Removed(before, early, count, was, retired, maxEntries, maxPending, token);
    }
  }
}

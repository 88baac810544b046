/**
 What every step of the delivery protocol keeps: one copy of each message, its
 ledger, and the agents' hands.
 */
module DeliveryInvariant {
  import opened Messages
  import opened Delivery

  // ---- The invariant -------------------------------------------------------

  /** No message id occurs at two positions. */
  ghost predicate OneCopy(h: Holds) {
    forall p, q, i, j :: 0 <= i < |Held(h, p)| && 0 <= j < |Held(h, q)| && Held(h, p)[i].id == Held(h, q)[j].id
                         ==> p == q && i == j
  }

  ghost predicate Present(h: Holds, id: string) {
    exists p, i :: 0 <= i < |Held(h, p)| && Held(h, p)[i].id == id
  }

  /** Acknowledged runs a message still needs when it enters a topic. */
  function Owed(first: EMessage): int {
    if first.deliveryMode.Repeated? then first.deliveryMode.times - first.consumedCount else 1
  }

  /** A worker a message aimed at `target` may be delivered to. */
  ghost predicate TargetOk(w: string, target: string, names: set<string>, nodes: set<string>) {
    w == target || (w in names && exists n :: n in nodes && w == Qualified(n, target))
  }

  predicate Final(p: Place) {
    p.Completed? || p.Dropped? || p.Failed?
  }

  /** A message that can still be handled agrees with its ledger. */
  predicate Live(m: EMessage, l: Ledger) {
    && m.consumedCount + l.retries == l.first.consumedCount + l.runs
    && (!m.deliveryMode.Repeated? ==> l.runs == l.retries)
    && (m.deliveryMode.Repeated? && Owed(l.first) >= 1 ==> m.consumedCount < m.deliveryMode.times)
    && (l.retries > 0 ==> l.first.attempts + l.retries < l.maxRetries)
    && (l.handler.Some? ==> m.toWorker == l.handler)
    && l.retries <= l.runs && !l.system
    && m.payload == l.payload && (l.runs == 0 ==> l.payload == l.first.payload)
  }

  /** A completed message was run to its end: as often as it owed, not counting the runs that were retried. */
  predicate Done(l: Ledger) {
    l.runs > l.retries && (!l.system ==> l.runs - l.retries == Owed(l.first))
  }

  ghost predicate Good(p: Place, m: EMessage, l: Ledger, names: set<string>, nodes: set<string>) {
    && m.deliveryMode == l.first.deliveryMode && !m.deliveryMode.Broadcast?
    && m.topic == l.first.topic
    && m.attempts == l.first.attempts + l.relays + l.retries
    && (l.first.toWorker.Some? ==>
          m.toWorker.Some? && TargetOk(m.toWorker.value, l.first.toWorker.value, names, nodes))
    && (p.InInbox? ==> m.toWorker == Some(p.w))
    && (p.Dropped? ==> m.toWorker.Some? && m.attempts >= MAX_TARGETED_HOPS)
    && (!Final(p) ==> Live(m, l))
    && (p.Completed? ==> Done(l))
  }

  /** The limits a ledger never exceeds. */
  ghost predicate Bounded(l: Ledger, names: set<string>, nodes: set<string>) {
    && l.first.attempts + l.relays <= Max(MAX_TARGETED_HOPS, l.first.attempts)
    && (Owed(l.first) >= 1 ==> l.runs <= Owed(l.first) + Max(l.maxRetries - l.first.attempts, 1) - 1)
    && (l.handler.Some? ==> l.handler.value in names)
    && (l.handler.Some? && l.first.toWorker.Some? ==> TargetOk(l.handler.value, l.first.toWorker.value, names, nodes))
  }

  ghost predicate AllGood(h: Holds, ledgers: map<string, Ledger>, names: set<string>, nodes: set<string>) {
    forall p, i :: 0 <= i < |Held(h, p)| ==>
      Held(h, p)[i].id in ledgers && Good(p, Held(h, p)[i], ledgers[Held(h, p)[i].id], names, nodes)
  }

  ghost predicate Books(s: System) {
    && AllGood(s.holds, s.ledgers, s.workers.Keys, s.nodes)
    && (forall id :: id in s.ledgers ==> Bounded(s.ledgers[id], s.workers.Keys, s.nodes))
    && (forall k :: 0 <= k < |s.closed| ==> Bounded(s.closed[k], s.workers.Keys, s.nodes))
    && (forall id :: id in s.ledgers ==> Present(s.holds, id))
  }

  predicate DispatcherBusy(s: System, d: string) {
    d in s.dispatchers && s.dispatchers[d].phase in {DClaimed, DNacking, DRelaying}
  }

  predicate WorkerBusy(s: System, w: string) {
    w in s.workers && !s.workers[w].phase.WIdle?
  }

  ghost predicate DispatcherHand(s: System, d: string) {
    |Held(s.holds, AtDispatcher(d))| == if DispatcherBusy(s, d) then 1 else 0
  }

  ghost predicate WorkerHand(s: System, w: string) {
    && |Held(s.holds, AtWorker(w))| == (if WorkerBusy(s, w) then 1 else 0)
    && (w in s.workers && s.workers[w].kind.Ephemeral? && s.workers[w].phase.WHolding? ==>
          Held(s.holds, AtWorker(w)) != [] ==> Held(s.holds, AtWorker(w))[0].toWorker.None?)
  }

  /** Each agent holds exactly what its phase says. */
  ghost predicate Agents(s: System) {
    (forall d :: DispatcherHand(s, d)) && (forall w :: WorkerHand(s, w))
  }

  ghost predicate NamingOk(s: System) {
    && Unambiguous(s.workers.Keys, s.nodes)
    && (forall d :: d in s.dispatchers && s.dispatchers[d].node.Some? ==> s.dispatchers[d].node.value in s.nodes)
    && (forall d, n :: d in s.dispatchers && n in s.dispatchers[d].cached ==> n in s.workers)
  }

  ghost predicate Inv(s: System) {
    OneCopy(s.holds) && OwnSlots(s.holds) && Books(s) && Agents(s) && NamingOk(s)
  }

  // ---- Lawful moves --------------------------------------------------------

  ghost predicate LawfulArrival(s: System, to: Place, m: EMessage, names: set<string>) {
    && m.id !in s.ledgers
    && (to.InDelays? ==> to == InDelays(m.id))
    && Good(to, m, Opened(m), names, s.nodes)
  }

  ghost predicate LawfulPass(s: System, from: Place, to: Place, copy: EMessage, l: Ledger, closing: seq<Ledger>,
                             names: set<string>) {
    && Held(s.holds, from) != []
    && copy.id == Held(s.holds, from)[0].id
    && (to.InDelays? ==> to == InDelays(copy.id))
    && Good(to, copy, l, names, s.nodes)
    && Bounded(l, names, s.nodes)
    && forall k :: 0 <= k < |closing| ==> Bounded(closing[k], names, s.nodes)
  }

  // ---- One message out, one message in -------------------------------------

  lemma TakeShape(h: Holds, from: Place)
    requires Held(h, from) != []
    ensures forall p :: Held(Take(h, from), p) == if p == from then Held(h, p)[1..] else Held(h, p)
  {
  }

  lemma PutShape(h: Holds, t: Token)
    requires t.place.InDelays? ==> t.place == InDelays(t.msg.id) && Held(h, t.place) == []
    ensures forall p :: Held(PutToken(h, t), p) == if p == t.place then Held(h, p) + [t.msg] else Held(h, p)
  {
  }

  lemma TakeKeepsOneCopy(h: Holds, from: Place)
    requires OneCopy(h) && Held(h, from) != []
    ensures OneCopy(Take(h, from))
    ensures !Present(Take(h, from), Held(h, from)[0].id)
  {
    TakeShape(h, from);
    var h' := Take(h, from);
    forall p, q, i, j | 0 <= i < |Held(h', p)| && 0 <= j < |Held(h', q)| && Held(h', p)[i].id == Held(h', q)[j].id
      ensures p == q && i == j
    {
      var i0 := if p == from then i + 1 else i;
      var j0 := if q == from then j + 1 else j;
      assert Held(h, p)[i0].id == Held(h, q)[j0].id;
    }
    forall p, i | 0 <= i < |Held(h', p)|
      ensures Held(h', p)[i].id != Held(h, from)[0].id
    {
      assert Held(h', p)[i] == Held(h, p)[if p == from then i + 1 else i];
    }
  }

  lemma TakeKeepsPresent(h: Holds, from: Place, id: string)
    requires Held(h, from) != [] && Present(h, id) && id != Held(h, from)[0].id
    ensures Present(Take(h, from), id)
  {
    TakeShape(h, from);
    var h' := Take(h, from);
    var p, i :| 0 <= i < |Held(h, p)| && Held(h, p)[i].id == id;
    var i' := if p == from then i - 1 else i;
    assert Held(h', p)[i'] == Held(h, p)[i];
  }

  lemma PutKeepsOneCopy(h: Holds, t: Token)
    requires OneCopy(h) && !Present(h, t.msg.id)
    requires t.place.InDelays? ==> t.place == InDelays(t.msg.id) && Held(h, t.place) == []
    ensures OneCopy(PutToken(h, t))
    ensures Present(PutToken(h, t), t.msg.id)
  {
    PutShape(h, t);
    var h' := PutToken(h, t);
    assert Held(h', t.place)[|Held(h, t.place)|] == t.msg;
    forall p, q, i, j | 0 <= i < |Held(h', p)| && 0 <= j < |Held(h', q)| && Held(h', p)[i].id == Held(h', q)[j].id
      ensures p == q && i == j
    {
      if i < |Held(h, p)| {
        assert Held(h', p)[i] == Held(h, p)[i];
      }
      if j < |Held(h, q)| {
        assert Held(h', q)[j] == Held(h, q)[j];
      }
    }
  }

  lemma PutKeepsPresent(h: Holds, t: Token, id: string)
    requires Present(h, id)
    requires t.place.InDelays? ==> t.place == InDelays(t.msg.id) && Held(h, t.place) == []
    ensures Present(PutToken(h, t), id)
  {
    PutShape(h, t);
    var p, i :| 0 <= i < |Held(h, p)| && Held(h, p)[i].id == id;
    assert Held(PutToken(h, t), p)[i] == Held(h, p)[i];
  }

  /** More names never hurt, and a ledger may change once its message is out of every place. */
  lemma TakeKeepsGood(h: Holds, from: Place, ledgers: map<string, Ledger>, l: Ledger, names: set<string>,
                      names': set<string>, nodes: set<string>)
    requires OneCopy(h) && Held(h, from) != [] && AllGood(h, ledgers, names, nodes) && names <= names'
    ensures AllGood(Take(h, from), ledgers[Held(h, from)[0].id := l], names', nodes)
  {
    TakeShape(h, from);
    TakeKeepsOneCopy(h, from);
    var h' := Take(h, from);
    forall p, i | 0 <= i < |Held(h', p)|
      ensures Held(h', p)[i].id in ledgers && Held(h', p)[i].id != Held(h, from)[0].id
      ensures Good(p, Held(h', p)[i], ledgers[Held(h', p)[i].id], names', nodes)
    {
      assert Held(h', p)[i] == Held(h, p)[if p == from then i + 1 else i];
    }
  }

  lemma PutKeepsGood(h: Holds, t: Token, ledgers: map<string, Ledger>, names: set<string>, nodes: set<string>)
    requires AllGood(h, ledgers, names, nodes)
    requires t.place.InDelays? ==> t.place == InDelays(t.msg.id) && Held(h, t.place) == []
    requires t.msg.id in ledgers && Good(t.place, t.msg, ledgers[t.msg.id], names, nodes)
    ensures AllGood(PutToken(h, t), ledgers, names, nodes)
  {
    PutShape(h, t);
    var h' := PutToken(h, t);
    forall p, i | 0 <= i < |Held(h', p)|
      ensures Held(h', p)[i].id in ledgers && Good(p, Held(h', p)[i], ledgers[Held(h', p)[i].id], names, nodes)
    {
      if i < |Held(h, p)| {
        assert Held(h', p)[i] == Held(h, p)[i];
      }
    }
  }

  lemma BoundedWithMoreNames(s: System, names: set<string>)
    requires Books(s) && s.workers.Keys <= names
    ensures forall id :: id in s.ledgers ==> Bounded(s.ledgers[id], names, s.nodes)
    ensures forall k :: 0 <= k < |s.closed| ==> Bounded(s.closed[k], names, s.nodes)
  {
  }

  /** A slot of the delay store only ever holds its own message. */
  predicate SlotOf(id: string, q: seq<EMessage>) {
    q == [] || (|q| == 1 && q[0].id == id)
  }

  ghost predicate OwnSlots(h: Holds) {
    forall id :: SlotOf(id, Held(h, InDelays(id)))
  }

  lemma SlotEmpty(h: Holds, id: string)
    requires OwnSlots(h)
    ensures Held(h, InDelays(id)) == [] || Present(h, id)
  {
  }

  /** After the head of a place is taken, its delay slot is free for it. */
  lemma SlotFree(h: Holds, from: Place)
    requires OneCopy(h) && OwnSlots(h) && Held(h, from) != []
    ensures !Present(Take(h, from), Held(h, from)[0].id) && OneCopy(Take(h, from))
    ensures Held(Take(h, from), InDelays(Held(h, from)[0].id)) == []
  {
    TakeShape(h, from);
    TakeKeepsOneCopy(h, from);
    var id := Held(h, from)[0].id;
    assert OwnSlots(Take(h, from)) by {
      forall k
        ensures SlotOf(k, Held(Take(h, from), InDelays(k)))
      {
        assert SlotOf(k, Held(h, InDelays(k)));
      }
    }
    SlotEmpty(Take(h, from), id);
  }

  lemma PassKeepsPlaces(h: Holds, from: Place, t: Token, ids: set<string>)
    requires OneCopy(h) && OwnSlots(h) && Held(h, from) != [] && t.msg.id == Held(h, from)[0].id
    requires t.place.InDelays? ==> t.place == InDelays(t.msg.id)
    requires forall id :: id in ids ==> Present(h, id)
    ensures OneCopy(PutToken(Take(h, from), t))
    ensures forall id :: id in ids ==> Present(PutToken(Take(h, from), t), id)
  {
    var mid := Take(h, from);
    SlotFree(h, from);
    PutKeepsOneCopy(mid, t);
    forall id | id in ids
      ensures Present(PutToken(mid, t), id)
    {
      if id != t.msg.id {
        TakeKeepsPresent(h, from, id);
        PutKeepsPresent(mid, t, id);
      }
    }
  }

  lemma PassKeepsGood(h: Holds, from: Place, t: Token, ledgers: map<string, Ledger>, l: Ledger, names: set<string>,
                      names': set<string>, nodes: set<string>)
    requires OneCopy(h) && OwnSlots(h) && Held(h, from) != [] && t.msg.id == Held(h, from)[0].id
    requires t.place.InDelays? ==> t.place == InDelays(t.msg.id)
    requires AllGood(h, ledgers, names, nodes) && names <= names' && Good(t.place, t.msg, l, names', nodes)
    ensures AllGood(PutToken(Take(h, from), t), ledgers[t.msg.id := l], names', nodes)
  {
    SlotFree(h, from);
    TakeKeepsGood(h, from, ledgers, l, names, names', nodes);
    PutKeepsGood(Take(h, from), t, ledgers[t.msg.id := l], names', nodes);
  }

  ghost predicate Same(s: System, s': System) {
    s'.nodes == s.nodes && s.workers.Keys <= s'.workers.Keys
  }

  lemma PassKeepsBounds(s: System, id: string, l: Ledger, closing: seq<Ledger>, s': System)
    requires Books(s) && Same(s, s')
    requires Bounded(l, s'.workers.Keys, s.nodes)
    requires forall k :: 0 <= k < |closing| ==> Bounded(closing[k], s'.workers.Keys, s.nodes)
    requires s'.ledgers == s.ledgers[id := l] && s'.closed == s.closed + closing
    ensures forall i :: i in s'.ledgers ==> Bounded(s'.ledgers[i], s'.workers.Keys, s'.nodes)
    ensures forall k :: 0 <= k < |s'.closed| ==> Bounded(s'.closed[k], s'.workers.Keys, s'.nodes)
  {
  }

  lemma PassKeeps(s: System, from: Place, to: Place, copy: EMessage, l: Ledger, closing: seq<Ledger>, s': System)
    requires OneCopy(s.holds) && OwnSlots(s.holds) && Books(s) && Same(s, s')
    requires LawfulPass(s, from, to, copy, l, closing, s'.workers.Keys)
    requires s'.holds == PutToken(Take(s.holds, from), Token(to, copy))
    requires s'.ledgers == s.ledgers[copy.id := l] && s'.closed == s.closed + closing
    ensures OneCopy(s'.holds) && Books(s')
  {
    var t := Token(to, copy);
    assert copy.id in s.ledgers;
    PassKeepsPlaces(s.holds, from, t, s'.ledgers.Keys);
    PassKeepsGood(s.holds, from, t, s.ledgers, l, s.workers.Keys, s'.workers.Keys, s.nodes);
    PassKeepsBounds(s, copy.id, l, closing, s');
  }

  lemma ArriveKeeps(s: System, to: Place, m: EMessage, s': System)
    requires Inv(s) && Same(s, s')
    requires LawfulArrival(s, to, m, s'.workers.Keys)
    requires s'.holds == PutToken(s.holds, Token(to, m))
    requires s'.ledgers == s.ledgers[m.id := Opened(m)] && s'.closed == s.closed
    ensures OneCopy(s'.holds) && Books(s')
  {
    var t := Token(to, m);
    AbsentWithoutLedger(s, m.id);
    if to.InDelays? {
      SlotEmpty(s.holds, m.id);
    }
    PutKeepsOneCopy(s.holds, t);
    GoodWithNewLedger(s, m, s'.workers.Keys);
    PutKeepsGood(s.holds, t, s'.ledgers, s'.workers.Keys, s.nodes);
    BoundedWithMoreNames(s, s'.workers.Keys);
    forall other | other in s.ledgers
      ensures Present(s'.holds, other)
    {
      PutKeepsPresent(s.holds, t, other);
    }
  }

  lemma AbsentWithoutLedger(s: System, id: string)
    requires AllGood(s.holds, s.ledgers, s.workers.Keys, s.nodes) && id !in s.ledgers
    ensures !Present(s.holds, id)
  {
  }

  lemma GoodWithNewLedger(s: System, m: EMessage, names: set<string>)
    requires AllGood(s.holds, s.ledgers, s.workers.Keys, s.nodes) && m.id !in s.ledgers && s.workers.Keys <= names
    ensures AllGood(s.holds, s.ledgers[m.id := Opened(m)], names, s.nodes)
  {
  }
}

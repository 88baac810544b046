/**
 Every step of the delivery protocol keeps the invariant.
 */
module DeliverySteps {
  import opened Messages
  import opened Dispatch
  import opened Delivery
  import opened DeliveryInvariant
  import WP = WorkerProcess

  // ---- One message and its ledger ------------------------------------------

  lemma RelayGood(from: Place, to: Place, m: EMessage, l: Ledger, names: set<string>, nodes: set<string>)
    requires Good(from, m, l, names, nodes) && !Final(from) && Bounded(l, names, nodes)
    requires Hop(m).Some? && !to.InInbox? && !Final(to)
    ensures Good(to, Hop(m).value, Relayed(l), names, nodes)
    ensures Bounded(Relayed(l), names, nodes)
  {
  }

  /** A stamp names a worker the target allows, and never a second worker. */
  lemma StampGood(from: Place, m: EMessage, l: Ledger, w: string, node: Option<string>, names: set<string>, nodes: set<string>)
    requires Good(from, m, l, names, nodes) && !Final(from) && Bounded(l, names, nodes)
    requires Unambiguous(names, nodes) && w in names && (node.Some? ==> node.value in nodes)
    requires m.toWorker.Some? ==> Answers(node, w, m.toWorker.value)
    ensures Good(InInbox(w), Stamp(m, w), l, names, nodes)
  {
  }

  /** Whether the message stays live after a run. */
  predicate Again(d: WP.Disposition) {
    d.Requeued? || d.Retried?
  }

  lemma RunBounded(p: Place, m: EMessage, l: Ledger, w: string, topic: string, a: WorkerAct, again: bool,
                   names: set<string>, nodes: set<string>)
    requires a.Handle? && Good(p, m, l, names, nodes) && !Final(p) && Bounded(l, names, nodes)
    requires m.toWorker.Some? ==> m.toWorker.value == w
    requires w in names
    ensures Bounded(Ran(l, w, topic, m, a, again), names, nodes)
  {
  }

  /** What a run leaves agrees with the ledger the run writes. */
  ghost predicate RunAgrees(s: System, w: string, m: EMessage, a: WorkerAct, l: Ledger, to: Place, names: set<string>,
                            nodes: set<string>)
    requires w in s.workers && a.Handle?
  {
    var topic := s.workers[w].topic;
    match Disposition(s, w, m, a)
    case Finished => Good(Completed, m, Ran(l, w, topic, m, a, false), names, nodes)
    case Requeued(c) => c.id == m.id && Good(to, c, Ran(l, w, topic, m, a, true), names, nodes)
    case Retried(c) => c.id == m.id && Good(to, c, Ran(l, w, topic, m, a, true), names, nodes)
    case DeadLettered(c) =>
      c.id == m.id && Good(to, c, Opened(c), names, nodes) && Bounded(Opened(c), names, nodes)
  }

  lemma AckedRunGood(s: System, w: string, m: EMessage, a: WorkerAct, l: Ledger, to: Place, names: set<string>, nodes: set<string>)
    requires w in s.workers && a.Handle? && a.ack.Ack? && Good(AtWorker(w), m, l, names, nodes)
    requires (m.toWorker.Some? ==> m.toWorker.value == w) && !to.InInbox? && !Final(to)
    ensures RunAgrees(s, w, m, a, l, to, names, nodes)
  {
  }

  lemma LimitedRunGood(s: System, w: string, m: EMessage, a: WorkerAct, l: Ledger, to: Place, names: set<string>, nodes: set<string>)
    requires w in s.workers && a.Handle? && a.ack.NoAck? && Good(AtWorker(w), m, l, names, nodes)
    requires (m.toWorker.Some? ==> m.toWorker.value == w) && !to.InInbox? && !Final(to)
    requires m.attempts + 1 >= a.ack.maxRetries || IsSystemTopic(s.workers[w].topic)
    ensures RunAgrees(s, w, m, a, l, to, names, nodes)
  {
  }

  lemma RetriedRunGood(s: System, w: string, m: EMessage, a: WorkerAct, l: Ledger, to: Place, names: set<string>, nodes: set<string>)
    requires w in s.workers && a.Handle? && a.ack.NoAck? && Good(AtWorker(w), m, l, names, nodes)
    requires (m.toWorker.Some? ==> m.toWorker.value == w) && !to.InInbox? && !Final(to)
    requires m.attempts + 1 < a.ack.maxRetries && !IsSystemTopic(s.workers[w].topic)
    ensures RunAgrees(s, w, m, a, l, to, names, nodes)
  {
  }

  lemma RunGood(s: System, w: string, m: EMessage, a: WorkerAct, l: Ledger, to: Place, names: set<string>, nodes: set<string>)
    requires w in s.workers && a.Handle? && Good(AtWorker(w), m, l, names, nodes)
    requires m.toWorker.Some? ==> m.toWorker.value == w
    requires !to.InInbox? && !Final(to)
    ensures RunAgrees(s, w, m, a, l, to, names, nodes)
  {
    match a.ack
    case Ack => AckedRunGood(s, w, m, a, l, to, names, nodes);
    case NoAck(_, limit) =>
      if m.attempts + 1 >= limit || IsSystemTopic(s.workers[w].topic) {
        LimitedRunGood(s, w, m, a, l, to, names, nodes);
      } else {
        RetriedRunGood(s, w, m, a, l, to, names, nodes);
      }
    case Dead(_) =>
  }

  // ---- Moves are lawful ----------------------------------------------------

  ghost predicate LawfulMove(s: System, v: Move, names: set<string>) {
    v.take.Some? && v.put.Some? && v.put.value.msg.id in v.books &&
    var t := v.put.value;
    && v == Pass(v.take.value, t.place, t.msg, v.books[t.msg.id], v.closing)
    && LawfulPass(s, v.take.value, t.place, t.msg, v.books[t.msg.id], v.closing, names)
  }

  ghost predicate StillOrLawful(s: System, v: Move) {
    v == Still() || LawfulMove(s, v, s.workers.Keys)
  }

  /** A message at the head of a place with its ledger, ready to move. */
  ghost predicate Ready(s: System, p: Place, m: EMessage) {
    && Head(s, p) == Some(m) && !Final(p)
    && Good(p, m, s.ledgers[m.id], s.workers.Keys, s.nodes)
    && Bounded(s.ledgers[m.id], s.workers.Keys, s.nodes)
  }

  ghost predicate HeadReady(s: System, p: Place) {
    Head(s, p).Some? && !Final(p) ==> Ready(s, p, Head(s, p).value)
  }

  lemma HeadsReady(s: System)
    requires Books(s)
    ensures forall p :: HeadReady(s, p)
  {
  }

  lemma CarryLawful(s: System, from: Place, to: Place)
    requires HeadReady(s, from)
    requires !to.InInbox? && !to.Dropped? && !to.Completed? && !to.InDelays? && !Final(from)
    ensures StillOrLawful(s, Carry(s, from, to))
  {
  }

  lemma ClaimLawful(s: System, d: string, m: EMessage)
    requires d in s.dispatchers && Ready(s, AtDispatcher(d), m)
    requires Unambiguous(s.workers.Keys, s.nodes)
    requires s.dispatchers[d].node.Some? ==> s.dispatchers[d].node.value in s.nodes
    requires forall n :: n in s.dispatchers[d].cached ==> n in s.workers
    ensures StillOrLawful(s, ClaimMove(s, d, m))
  {
    var disp := s.dispatchers[d];
    var from := AtDispatcher(d);
    var l := s.ledgers[m.id];
    match Decide(disp.node, disp.cached, disp.cursor, m) {
      case NoWorkers =>
      case Deliver(i, _) =>
        assert disp.cached[i] in disp.cached;
        StampGood(from, m, l, disp.cached[i], disp.node, s.workers.Keys, s.nodes);
      case Relay(copy) => RelayGood(from, from, m, l, s.workers.Keys, s.nodes);
      case Drop =>
    }
  }

  lemma DispatcherLawful(s: System, d: string, a: DispatcherAct)
    requires d in s.dispatchers && NamingOk(s) && forall p :: HeadReady(s, p)
    ensures StillOrLawful(s, DispatcherMove(s, d, a))
  {
    var queue := InQueue(s.dispatchers[d].topic);
    assert HeadReady(s, queue) && HeadReady(s, AtDispatcher(d));
    match a {
      case ClaimNext => CarryLawful(s, queue, AtDispatcher(d));
      case DispatchClaim =>
        if Head(s, AtDispatcher(d)).Some? {
          ClaimLawful(s, d, Head(s, AtDispatcher(d)).value);
        }
      case NackClaim => CarryLawful(s, AtDispatcher(d), queue);
      case SendRelay => CarryLawful(s, AtDispatcher(d), queue);
      case FailRelay => CarryLawful(s, AtDispatcher(d), Place.Failed);
      case _ =>
    }
  }

  lemma RunLawful(s: System, w: string, m: EMessage, a: WorkerAct)
    requires w in s.workers && a.Handle? && Ready(s, AtWorker(w), m)
    requires !Misrouted(s, w, m) && (m.toWorker.Some? ==> m.toWorker.value == w)
    ensures LawfulMove(s, HandleMove(s, w, m, a), s.workers.Keys)
  {
    var p := AtWorker(w);
    var l := s.ledgers[m.id];
    var d := Disposition(s, w, m, a);
    RunBounded(p, m, l, w, s.workers[w].topic, a, Again(d), s.workers.Keys, s.nodes);
    match d {
      case Finished => RunGood(s, w, m, a, l, p, s.workers.Keys, s.nodes);
      case Requeued(c) => RunGood(s, w, m, a, l, p, s.workers.Keys, s.nodes);
      case Retried(c) => RunGood(s, w, m, a, l, RoutedTo(w, c), s.workers.Keys, s.nodes);
      case DeadLettered(c) => RunGood(s, w, m, a, l, RoutedTo(w, c), s.workers.Keys, s.nodes);
    }
  }

  lemma MisroutedLawful(s: System, w: string, m: EMessage, a: WorkerAct)
    requires w in s.workers && a.Handle? && Ready(s, AtWorker(w), m) && Misrouted(s, w, m)
    ensures LawfulMove(s, HandleMove(s, w, m, a), s.workers.Keys)
  {
  }

  lemma FailLawful(s: System, w: string, m: EMessage, ran: bool)
    requires w in s.workers && Ready(s, AtWorker(w), m)
    ensures LawfulMove(s, FailMove(s, w, m, ran), s.workers.Keys)
  {
  }

  lemma HandleLawful(s: System, w: string, m: EMessage, a: WorkerAct)
    requires w in s.workers && a.Handle? && Ready(s, AtWorker(w), m)
    requires s.workers[w].kind.Ephemeral? ==> m.toWorker.None?
    ensures LawfulMove(s, HandleMove(s, w, m, a), s.workers.Keys)
  {
    if Misrouted(s, w, m) {
      MisroutedLawful(s, w, m, a);
    } else {
      RunLawful(s, w, m, a);
    }
  }

  lemma WorkerLawful(s: System, w: string, a: WorkerAct)
    requires w in s.workers && (a.SendFrom? ==> s.workers[w].phase.WSending?) && forall p :: HeadReady(s, p)
    requires a.Handle? && s.workers[w].kind.Ephemeral? && Head(s, AtWorker(w)).Some? ==>
               Head(s, AtWorker(w)).value.toWorker.None?
    ensures StillOrLawful(s, WorkerMove(s, w, a))
  {
    assert HeadReady(s, AtWorker(w));
    match a {
      case ReceiveInbox => CarryLawful(s, InInbox(w), AtWorker(w));
      case ReceiveQueue => CarryLawful(s, InQueue(s.workers[w].topic), AtWorker(w));
      case SendFrom => CarryLawful(s, AtWorker(w), InQueue(s.workers[w].phase.dest));
      case FailSend => CarryLawful(s, AtWorker(w), Place.Failed);
      case FailRun(ran) =>
        if Head(s, AtWorker(w)).Some? {
          FailLawful(s, w, Head(s, AtWorker(w)).value, ran);
        }
      case Handle(_, _, _) =>
        if Head(s, AtWorker(w)).Some? {
          HandleLawful(s, w, Head(s, AtWorker(w)).value, a);
        }
    }
  }

  lemma RouteLawful(s: System, m: EMessage, choice: Option<string>, ephemeral: string)
    requires Ready(s, InBatch, m) && (choice.Some? ==> choice.value in s.workers)
    ensures LawfulMove(s, RouteMove(s, m, choice, ephemeral), s.workers.Keys)
  {
    var l := s.ledgers[m.id];
    if Hop(m).Some? {
      RelayGood(InBatch, InQueue(m.topic), m, l, s.workers.Keys, s.nodes);
    }
  }

  lemma FetchLawful(s: System, id: string, m: EMessage)
    requires Ready(s, InDelays(id), m)
    ensures LawfulMove(s, FetchMove(s, id, m), s.workers.Keys)
  {
  }

  lemma LoopLawful(s: System, a: LoopAct)
    requires (a.RouteMain? && a.choice.Some? ==> a.choice.value in s.workers) && forall p :: HeadReady(s, p)
    ensures StillOrLawful(s, LoopMove(s, a))
  {
    match a {
      case FetchReady(id, _) =>
        assert HeadReady(s, InDelays(id));
        if Head(s, InDelays(id)).Some? {
          FetchLawful(s, id, Head(s, InDelays(id)).value);
        }
      case SendReady =>
        if Head(s, InReady).Some? {
          CarryLawful(s, InReady, InQueue(Head(s, InReady).value.topic));
        }
      case FailReady => CarryLawful(s, InReady, Place.Failed);
      case ClaimMain => CarryLawful(s, InMain, InBatch);
      case RouteMain(choice, ephemeral) =>
        assert HeadReady(s, InBatch);
        if Head(s, InBatch).Some? {
          RouteLawful(s, Head(s, InBatch).value, choice, ephemeral);
        }
      case NackMain => CarryLawful(s, InRouterNack, InMain);
    }
  }

  // ---- The places after a step ---------------------------------------------

  lemma LawfulWithMoreNames(s: System, v: Move, names: set<string>)
    requires LawfulMove(s, v, s.workers.Keys) && s.workers.Keys <= names
    ensures LawfulMove(s, v, names)
  {
  }

  lemma MoveKeepsBooks(s: System, v: Move, s': System)
    requires OneCopy(s.holds) && OwnSlots(s.holds) && Books(s) && Same(s, s') && StillOrLawful(s, v)
    requires s'.holds == Apply(s, v).holds && s'.ledgers == Apply(s, v).ledgers && s'.closed == Apply(s, v).closed
    ensures OneCopy(s'.holds) && Books(s')
  {
    if v == Still() {
      StillKeepsBooks(s, s');
    } else {
      PassMoveKeepsBooks(s, v, s');
    }
  }

  lemma OneBook(ledgers: map<string, Ledger>, id: string, l: Ledger)
    ensures ledgers + map[id := l] == ledgers[id := l]
  {
  }

  lemma NoBook(ledgers: map<string, Ledger>, closed: seq<Ledger>)
    ensures ledgers + map[] == ledgers && closed + [] == closed
  {
  }

  lemma PassMoveKeepsBooks(s: System, v: Move, s': System)
    requires OneCopy(s.holds) && OwnSlots(s.holds) && Books(s) && Same(s, s') && LawfulMove(s, v, s.workers.Keys)
    requires s'.holds == Apply(s, v).holds && s'.ledgers == Apply(s, v).ledgers && s'.closed == Apply(s, v).closed
    ensures OneCopy(s'.holds) && Books(s')
  {
    var t := v.put.value;
    var l := v.books[t.msg.id];
    LawfulWithMoreNames(s, v, s'.workers.Keys);
    OneBook(s.ledgers, t.msg.id, l);
    PassKeeps(s, v.take.value, t.place, t.msg, l, v.closing, s');
  }

  lemma StillKeepsBooks(s: System, s': System)
    requires Books(s) && Same(s, s') && s'.holds == s.holds && s'.ledgers == s.ledgers + map[] && s'.closed == s.closed + []
    ensures Books(s')
  {
    NoBook(s.ledgers, s.closed);
    BoundedWithMoreNames(s, s'.workers.Keys);
  }

  /** What a place holds after a move. */
  ghost predicate ShiftedAt(h: Holds, h': Holds, v: Move, p: Place) {
    if v == Still() then Held(h', p) == Held(h, p)
    else
      && v.take.Some? && v.put.Some? && Held(h, v.take.value) != []
      && Held(h', p) ==
           (if p == v.take.value then Held(h, p)[1..] else Held(h, p)) +
           (if p == v.put.value.place then [v.put.value.msg] else [])
  }

  ghost predicate Shifted(h: Holds, h': Holds, v: Move) {
    forall p :: ShiftedAt(h, h', v, p)
  }

  /** The hands of the two agents named `e`, if there are such, see the move. */
  ghost predicate ShiftedFor(h: Holds, h': Holds, v: Move, e: string) {
    ShiftedAt(h, h', v, AtDispatcher(e)) && ShiftedAt(h, h', v, AtWorker(e))
  }

  lemma MoveShifts(s: System, v: Move)
    requires OneCopy(s.holds) && OwnSlots(s.holds) && StillOrLawful(s, v)
    ensures Shifted(s.holds, Apply(s, v).holds, v)
    ensures OwnSlots(Apply(s, v).holds)
  {
  }

  // ---- The hands after a step ----------------------------------------------

  predicate HeadKnown(s: System, p: Place) {
    Held(s.holds, p) != [] ==> Head(s, p).Some?
  }

  lemma ClaimKeepsHands(s: System, d: string, m: EMessage, s': System, e: string)
    requires d in s.dispatchers && s.dispatchers[d].phase.DClaimed? && Head(s, AtDispatcher(d)) == Some(m)
    requires DispatcherHand(s, e) && WorkerHand(s, e) && DispatcherHand(s, d)
    requires ShiftedFor(s.holds, s'.holds, ClaimMove(s, d, m), e) && s'.workers == s.workers
    requires s'.dispatchers == s.dispatchers[d := ClaimControl(s, d, m)]
    ensures DispatcherHand(s', e) && WorkerHand(s', e)
  {
  }

  lemma DispatcherKeepsHands(s: System, d: string, a: DispatcherAct, s': System, e: string)
    requires d in s.dispatchers && DispatcherEnabled(s, d, a)
    requires DispatcherHand(s, e) && WorkerHand(s, e) && DispatcherHand(s, d)
    requires HeadKnown(s, AtDispatcher(d)) && HeadKnown(s, InQueue(s.dispatchers[d].topic))
    requires ShiftedFor(s.holds, s'.holds, DispatcherMove(s, d, a), e) && s'.workers == s.workers
    requires s'.dispatchers == s.dispatchers[d := DispatcherControl(s, d, a)]
    ensures DispatcherHand(s', e) && WorkerHand(s', e)
  {
    if a.DispatchClaim? {
      assert DispatcherBusy(s, d);
      ClaimKeepsHands(s, d, Head(s, AtDispatcher(d)).value, s', e);
    }
  }

  lemma HandleKeepsHands(s: System, w: string, a: WorkerAct, m: EMessage, s': System, e: string)
    requires w in s.workers && a.Handle? && s.workers[w].phase.WHolding?
    requires DispatcherHand(s, e) && WorkerHand(s, e) && WorkerHand(s, w)
    requires Head(s, AtWorker(w)) == Some(m)
    requires ShiftedFor(s.holds, s'.holds, HandleMove(s, w, m, a), e) && s'.dispatchers == s.dispatchers
    requires s'.workers == s.workers[w := s.workers[w].(phase := HandleControl(s, w, m, a))]
    ensures DispatcherHand(s', e) && WorkerHand(s', e)
  {
  }

  lemma WorkerKeepsHands(s: System, w: string, a: WorkerAct, s': System, e: string)
    requires w in s.workers && WorkerEnabled(s, w, a)
    requires DispatcherHand(s, e) && WorkerHand(s, e) && WorkerHand(s, w)
    requires HeadKnown(s, AtWorker(w)) && HeadKnown(s, InQueue(s.workers[w].topic)) && HeadKnown(s, InInbox(w))
    requires ShiftedFor(s.holds, s'.holds, WorkerMove(s, w, a), e) && s'.dispatchers == s.dispatchers
    requires s'.workers == s.workers[w := s.workers[w].(phase := WorkerControl(s, w, a))]
    ensures DispatcherHand(s', e) && WorkerHand(s', e)
  {
    if a.Handle? {
      assert WorkerBusy(s, w);
      HandleKeepsHands(s, w, a, Head(s, AtWorker(w)).value, s', e);
    }
  }

  lemma RouteKeepsHands(s: System, a: LoopAct, m: EMessage, s': System, e: string)
    requires a.RouteMain? && (a.choice.Some? ==> a.choice.value in s.workers) && a.ephemeral !in s.workers
    requires DispatcherHand(s, e) && WorkerHand(s, e) && WorkerHand(s, a.ephemeral)
    requires Head(s, InBatch) == Some(m)
    requires ShiftedFor(s.holds, s'.holds, RouteMove(s, m, a.choice, a.ephemeral), e)
    requires s'.dispatchers == s.dispatchers && s'.workers == LoopControl(s, a).workers
    ensures DispatcherHand(s', e) && WorkerHand(s', e)
  {
  }

  lemma LoopKeepsHands(s: System, a: LoopAct, s': System, e: string)
    requires !a.RouteMain?
    requires DispatcherHand(s, e) && WorkerHand(s, e)
    requires ShiftedFor(s.holds, s'.holds, LoopMove(s, a), e)
    requires s'.dispatchers == s.dispatchers && s'.workers == s.workers
    ensures DispatcherHand(s', e) && WorkerHand(s', e)
  {
  }

  // ---- Steps keep the invariant --------------------------------------------

  lemma HeadsKnown(s: System)
    requires Books(s)
    ensures forall p :: HeadKnown(s, p)
  {
  }

  /** A lawful move keeps the places and the books, and shifts one message. */
  lemma MoveKeeps(s: System, v: Move, s': System)
    requires OneCopy(s.holds) && OwnSlots(s.holds) && Books(s) && Same(s, s') && StillOrLawful(s, v)
    requires s'.holds == Apply(s, v).holds && s'.ledgers == Apply(s, v).ledgers && s'.closed == Apply(s, v).closed
    ensures OneCopy(s'.holds) && Books(s') && OwnSlots(s'.holds)
    ensures Shifted(s.holds, s'.holds, v)
  {
    MoveShifts(s, v);
    MoveKeepsBooks(s, v, s');
  }

  lemma DispatcherAgents(s: System, d: string, a: DispatcherAct, s': System)
    requires d in s.dispatchers && DispatcherEnabled(s, d, a) && Agents(s)
    requires forall p :: HeadKnown(s, p)
    requires Shifted(s.holds, s'.holds, DispatcherMove(s, d, a)) && s'.workers == s.workers
    requires s'.dispatchers == s.dispatchers[d := DispatcherControl(s, d, a)]
    ensures Agents(s')
  {
    assert HeadKnown(s, AtDispatcher(d)) && HeadKnown(s, InQueue(s.dispatchers[d].topic)) && DispatcherHand(s, d);
    forall e
      ensures DispatcherHand(s', e) && WorkerHand(s', e)
    {
      assert DispatcherHand(s, e) && WorkerHand(s, e);
      DispatcherKeepsHands(s, d, a, s', e);
    }
  }

  lemma DispatcherPlaces(s: System, d: string, a: DispatcherAct)
    requires Inv(s) && Enabled(s, Disp(d, a))
    ensures
      var s' := Next(s, Disp(d, a));
      && OneCopy(s'.holds) && Books(s') && OwnSlots(s'.holds)
      && Shifted(s.holds, s'.holds, DispatcherMove(s, d, a)) && forall p :: HeadKnown(s, p)
  {
    HeadsReady(s);
    HeadsKnown(s);
    DispatcherLawful(s, d, a);
    MoveKeeps(s, DispatcherMove(s, d, a), Next(s, Disp(d, a)));
  }

  lemma DispatcherKeepsControl(s: System, d: string, a: DispatcherAct)
    requires Agents(s) && NamingOk(s) && Enabled(s, Disp(d, a)) && forall p :: HeadKnown(s, p)
    requires Shifted(s.holds, Next(s, Disp(d, a)).holds, DispatcherMove(s, d, a))
    ensures Agents(Next(s, Disp(d, a))) && NamingOk(Next(s, Disp(d, a)))
  {
    DispatcherAgents(s, d, a, Next(s, Disp(d, a)));
  }

  lemma DispatcherStep(s: System, d: string, a: DispatcherAct)
    requires Inv(s) && Enabled(s, Disp(d, a))
    ensures Inv(Next(s, Disp(d, a)))
  {
    DispatcherPlaces(s, d, a);
    DispatcherKeepsControl(s, d, a);
  }

  lemma WorkerAgents(s: System, w: string, a: WorkerAct, s': System)
    requires w in s.workers && WorkerEnabled(s, w, a) && Agents(s)
    requires forall p :: HeadKnown(s, p)
    requires Shifted(s.holds, s'.holds, WorkerMove(s, w, a)) && s'.dispatchers == s.dispatchers
    requires s'.workers == s.workers[w := s.workers[w].(phase := WorkerControl(s, w, a))]
    ensures Agents(s')
  {
    assert HeadKnown(s, AtWorker(w)) && HeadKnown(s, InQueue(s.workers[w].topic)) && HeadKnown(s, InInbox(w));
    assert WorkerHand(s, w);
    forall e
      ensures DispatcherHand(s', e) && WorkerHand(s', e)
    {
      assert DispatcherHand(s, e) && WorkerHand(s, e);
      WorkerKeepsHands(s, w, a, s', e);
    }
  }

  lemma WorkerPlaces(s: System, w: string, a: WorkerAct)
    requires Inv(s) && Enabled(s, Work(w, a))
    ensures
      var s' := Next(s, Work(w, a));
      && OneCopy(s'.holds) && Books(s') && OwnSlots(s'.holds)
      && Shifted(s.holds, s'.holds, WorkerMove(s, w, a)) && forall p :: HeadKnown(s, p)
  {
    HeadsReady(s);
    HeadsKnown(s);
    assert WorkerHand(s, w);
    WorkerLawful(s, w, a);
    MoveKeeps(s, WorkerMove(s, w, a), Next(s, Work(w, a)));
  }

  lemma WorkerKeepsControl(s: System, w: string, a: WorkerAct)
    requires Agents(s) && NamingOk(s) && Enabled(s, Work(w, a)) && forall p :: HeadKnown(s, p)
    requires Shifted(s.holds, Next(s, Work(w, a)).holds, WorkerMove(s, w, a))
    ensures Agents(Next(s, Work(w, a))) && NamingOk(Next(s, Work(w, a)))
  {
    WorkerAgents(s, w, a, Next(s, Work(w, a)));
    assert Next(s, Work(w, a)).workers.Keys == s.workers.Keys;
  }

  lemma WorkerStep(s: System, w: string, a: WorkerAct)
    requires Inv(s) && Enabled(s, Work(w, a))
    ensures Inv(Next(s, Work(w, a)))
  {
    WorkerPlaces(s, w, a);
    WorkerKeepsControl(s, w, a);
  }

  lemma LoopAgents(s: System, a: LoopAct, s': System)
    requires LoopEnabled(s, a) && Agents(s)
    requires forall p :: HeadKnown(s, p)
    requires Shifted(s.holds, s'.holds, LoopMove(s, a))
    requires s'.dispatchers == s.dispatchers && s'.workers == LoopControl(s, a).workers
    ensures Agents(s')
  {
    assert HeadKnown(s, InBatch);
    forall e
      ensures DispatcherHand(s', e) && WorkerHand(s', e)
    {
      assert DispatcherHand(s, e) && WorkerHand(s, e);
      if a.RouteMain? {
        assert WorkerHand(s, a.ephemeral);
        RouteKeepsHands(s, a, Head(s, InBatch).value, s', e);
      } else {
        LoopKeepsHands(s, a, s', e);
      }
    }
  }

  lemma LoopPlaces(s: System, a: LoopAct)
    requires Inv(s) && Enabled(s, Loop(a))
    ensures
      var s' := Next(s, Loop(a));
      && OneCopy(s'.holds) && Books(s') && OwnSlots(s'.holds)
      && Shifted(s.holds, s'.holds, LoopMove(s, a)) && forall p :: HeadKnown(s, p)
  {
    HeadsReady(s);
    HeadsKnown(s);
    LoopLawful(s, a);
    MoveKeeps(s, LoopMove(s, a), Next(s, Loop(a)));
  }

  lemma LoopKeepsControl(s: System, a: LoopAct)
    requires Agents(s) && NamingOk(s) && Enabled(s, Loop(a)) && forall p :: HeadKnown(s, p)
    requires Shifted(s.holds, Next(s, Loop(a)).holds, LoopMove(s, a))
    ensures Agents(Next(s, Loop(a))) && NamingOk(Next(s, Loop(a)))
  {
    LoopAgents(s, a, Next(s, Loop(a)));
  }

  lemma LoopStep(s: System, a: LoopAct)
    requires Inv(s) && Enabled(s, Loop(a))
    ensures Inv(Next(s, Loop(a)))
  {
    LoopPlaces(s, a);
    LoopKeepsControl(s, a);
  }
}

/**
 The message-delivery protocol as a state machine: bounded topic queues, one
 dispatcher per topic and node, worker inboxes, workers, the delay store with its
 scheduler, and the router that drains the main queue. A step is what happens
 between two awaits; a blocking send is a step that needs room.
 */
module Delivery {
  import opened Messages
  import opened Dispatch
  import WP = WorkerProcess

  // ---- State ---------------------------------------------------------------

  /** Everything that can hold messages. */
  datatype Place =
    | InMain                      // the main queue `recv` drains
    | InBatch                     // claimed by `recv`, not yet routed
    | InRouterNack                // `recv` will give it back
    | InQueue(topic: string)      // a topic's channel
    | AtDispatcher(d: string)     // claimed by a dispatcher, or in its hand for a relay
    | InInbox(w: string)
    | AtWorker(w: string)
    | InDelays(id: string)        // the delay store's slot for a message id
    | InReady                     // fetched by the scheduler, not yet sent
    | Completed | Dropped | Failed

  /** What a dispatcher does with the message in its hand; `DDelivered` owes only an ack. */
  datatype DispatcherPhase = DIdle | DClaimed | DNacking | DDelivered | DRelaying

  datatype Dispatcher = Dispatcher(
    node: Option<string>, topic: string, cached: seq<string>, cursor: nat, phase: DispatcherPhase)

  /** Created workers read an inbox; workers without one read the topic queue; ephemeral ones get one message. */
  datatype WorkerKind = FromInbox | FromQueue | Ephemeral

  datatype WorkerPhase = WIdle | WHolding | WSending(dest: string)

  /** A deleted worker is not `alive`; its inbox stays `open` until its task is torn down. */
  datatype WorkerState = WorkerState(kind: WorkerKind, topic: string, alive: bool, open: bool, phase: WorkerPhase)

  /**
   History of one message on one topic. `first` is the message as it entered the
   topic, `maxRetries` the largest retry limit a handler has answered with, `payload`
   what the last run left of the payload, and `system` whether a system-topic worker
   has run it.
   */
  datatype Ledger = Ledger(
    first: EMessage, runs: nat, retries: nat, relays: nat, maxRetries: nat, handler: Option<string>,
    payload: seq<bv8>, system: bool)

  type Holds = map<Place, seq<EMessage>>

  datatype System = System(
    capacity: nat, inboxCapacity: nat, nodes: set<string>,
    holds: Holds,
    topics: set<string>,
    dispatchers: map<string, Dispatcher>,
    workers: map<string, WorkerState>,
    ledgers: map<string, Ledger>, closed: seq<Ledger>)

  /** Nothing has happened yet. */
  predicate Initial(s: System) {
    && s.holds == map[] && s.topics == {} && s.dispatchers == map[] && s.workers == map[]
    && s.ledgers == map[] && s.closed == []
  }

  function Held(h: Holds, p: Place): seq<EMessage> {
    if p in h then h[p] else []
  }

  function Put(h: Holds, p: Place, m: EMessage): Holds {
    h[p := Held(h, p) + [m]]
  }

  function Take(h: Holds, p: Place): Holds
    requires Held(h, p) != []
  {
    h[p := Held(h, p)[1..]]
  }

  /** The delay store keeps one record per message id; a later one replaces it. */
  function Store(h: Holds, m: EMessage): Holds {
    h[InDelays(m.id) := [m]]
  }

  // ---- Actions -------------------------------------------------------------

  /** Arrivals and lifecycle. A topic is registered once; a worker name is never reused. */
  datatype EnvAct =
    | Submit(m: EMessage)
    | SubmitToMain(m: EMessage)
    | RegisterTopic(topic: string)
    | StartDispatcher(d: string, node: Option<string>, topic: string)
    | CreateWorker(w: string, kind: WorkerKind, topic: string)
    | DeleteWorker(w: string)
    | CloseInbox(w: string)

  datatype DispatcherAct =
    | ClaimNext
    | RefreshCache(names: seq<string>)
    | DispatchClaim
    | AckDelivered
    | NackClaim
    | SendRelay
    | FailRelay

  datatype WorkerAct =
    | ReceiveInbox
    | ReceiveQueue
    | Handle(ack: Ack, payload: seq<bv8>, now: Time)
    | FailRun(ran: bool)
    | SendFrom
    | FailSend

  /** The delay scheduler and the `recv` loop. */
  datatype LoopAct =
    | FetchReady(id: string, now: Time)
    | SendReady
    | FailReady
    | ClaimMain
    | RouteMain(choice: Option<string>, ephemeral: string)
    | NackMain

  datatype Step = Env(e: EnvAct) | Disp(d: string, a: DispatcherAct) | Work(w: string, b: WorkerAct) | Loop(c: LoopAct)

  // ---- Guards --------------------------------------------------------------

  predicate HasRoom(s: System, topic: string) {
    topic in s.topics && |Held(s.holds, InQueue(topic))| < s.capacity
  }

  predicate Active(s: System, w: string) {
    w in s.workers && s.workers[w].alive
  }

  predicate InboxTakes(s: System, w: string) {
    && w in s.workers && s.workers[w].kind.FromInbox? && s.workers[w].open
    && |Held(s.holds, InInbox(w))| < s.inboxCapacity
  }

  ghost predicate FreshName(s: System, w: string) {
    w !in s.workers && Unambiguous(s.workers.Keys + {w}, s.nodes)
  }

  ghost predicate EnvEnabled(s: System, e: EnvAct) {
    match e
    case Submit(m) =>
      && m.id !in s.ledgers && m.deliveryMode != Broadcast
      && (m.deliverAt.Some? || HasRoom(s, m.topic))
    case SubmitToMain(m) =>
      m.id !in s.ledgers && m.deliveryMode != Broadcast && |Held(s.holds, InMain)| < s.capacity
    case RegisterTopic(t) => t !in s.topics
    case StartDispatcher(d, node, t) =>
      d !in s.dispatchers && t in s.topics && (node.Some? ==> node.value in s.nodes)
    case CreateWorker(w, kind, t) => FreshName(s, w) && t in s.topics && !kind.Ephemeral?
    case DeleteWorker(w) => Active(s, w)
    case CloseInbox(w) => w in s.workers && !s.workers[w].alive
  }

  predicate DispatcherEnabled(s: System, d: string, a: DispatcherAct)
    requires d in s.dispatchers
  {
    var disp := s.dispatchers[d];
    match a
    case ClaimNext => disp.phase.DIdle? && Held(s.holds, InQueue(disp.topic)) != []
    case RefreshCache(names) =>
      disp.phase.DClaimed? && forall n :: n in names ==> n in s.workers && s.workers[n].topic == disp.topic
    case DispatchClaim => disp.phase.DClaimed?
    case AckDelivered => disp.phase.DDelivered?
    case NackClaim => disp.phase.DNacking? && HasRoom(s, disp.topic)
    case SendRelay => disp.phase.DRelaying? && HasRoom(s, disp.topic)
    case FailRelay => disp.phase.DRelaying?
  }

  predicate WorkerEnabled(s: System, w: string, a: WorkerAct)
    requires w in s.workers
  {
    var ws := s.workers[w];
    && ws.alive
    && match a
       case ReceiveInbox => ws.kind.FromInbox? && ws.phase.WIdle? && Held(s.holds, InInbox(w)) != []
       case ReceiveQueue => ws.kind.FromQueue? && ws.phase.WIdle? && Held(s.holds, InQueue(ws.topic)) != []
       case Handle(_, _, _) => ws.phase.WHolding?
       case FailRun(_) => ws.phase.WHolding?
       case SendFrom => ws.phase.WSending? && HasRoom(s, ws.phase.dest)
       case FailSend => ws.phase.WSending?
  }

  ghost predicate LoopEnabled(s: System, a: LoopAct) {
    match a
    case FetchReady(id, now) =>
      var slot := Held(s.holds, InDelays(id));
      slot != [] && slot[0].deliverAt.Some? && slot[0].deliverAt.value <= now
    case SendReady =>
      var ready := Held(s.holds, InReady);
      ready != [] && HasRoom(s, ready[0].topic)
    case FailReady => Held(s.holds, InReady) != []
    case ClaimMain => Held(s.holds, InMain) != []
    case RouteMain(choice, ephemeral) =>
      var batch := Held(s.holds, InBatch);
      batch != [] && FreshName(s, ephemeral) && RoutingChoice(s, batch[0], choice)
    case NackMain => Held(s.holds, InRouterNack) != [] && |Held(s.holds, InMain)| < s.capacity
  }

  /** A targeted message may only go to a worker that answers to its target, an untargeted one to a worker of its topic. */
  ghost predicate RoutingChoice(s: System, m: EMessage, choice: Option<string>) {
    choice.Some? ==>
      && Active(s, choice.value)
      && match m.toWorker
         case None => s.workers[choice.value].topic == m.topic
         case Some(target) => exists n: Option<string> :: Answers(n, choice.value, target)
  }

  ghost predicate Enabled(s: System, step: Step) {
    match step
    case Env(e) => EnvEnabled(s, e)
    case Disp(d, a) => d in s.dispatchers && DispatcherEnabled(s, d, a)
    case Work(w, a) => w in s.workers && WorkerEnabled(s, w, a)
    case Loop(a) => LoopEnabled(s, a)
  }

  // ---- Ledgers -------------------------------------------------------------

  function Opened(m: EMessage): Ledger {
    Ledger(m, 0, 0, 0, 0, None, m.payload, false)
  }

  function Relayed(l: Ledger): Ledger {
    l.(relays := l.relays + 1)
  }

  /** A handler run that leaves the message live (`again`) or ends its stay on the topic. */
  function Ran(l: Ledger, w: string, topic: string, m: EMessage, a: WorkerAct, again: bool): Ledger
    requires a.Handle?
  {
    var l := l.(runs := l.runs + 1, handler := if m.toWorker.Some? then Some(w) else l.handler,
                payload := a.payload, system := l.system || IsSystemTopic(topic));
    if a.ack.NoAck? then
      l.(maxRetries := Max(l.maxRetries, a.ack.maxRetries), retries := if again then l.retries + 1 else l.retries)
    else l
  }

  // ---- Moves ---------------------------------------------------------------

  datatype Token = Token(place: Place, msg: EMessage)

  /** What one step takes out of a place, what it puts into one, and the ledgers it writes. */
  datatype Move = Move(take: Option<Place>, put: Option<Token>, books: map<string, Ledger>, closing: seq<Ledger>)

  function PutToken(h: Holds, t: Token): Holds {
    if t.place.InDelays? then Store(h, t.msg) else Put(h, t.place, t.msg)
  }

  function Apply(s: System, v: Move): System {
    var h := if v.take.Some? && Held(s.holds, v.take.value) != [] then Take(s.holds, v.take.value) else s.holds;
    s.(holds := if v.put.Some? then PutToken(h, v.put.value) else h,
       ledgers := s.ledgers + v.books, closed := s.closed + v.closing)
  }

  function Still(): Move {
    Move(None, None, map[], [])
  }

  function Arrive(to: Place, m: EMessage): Move {
    Move(None, Some(Token(to, m)), map[m.id := Opened(m)], [])
  }

  function Pass(from: Place, to: Place, copy: EMessage, ledger: Ledger, closing: seq<Ledger>): Move {
    Move(Some(from), Some(Token(to, copy)), map[copy.id := ledger], closing)
  }

  /** The next message a place gives up. */
  function Head(s: System, p: Place): (r: Option<EMessage>)
    ensures r.Some? ==> Held(s.holds, p) != [] && r.value == Held(s.holds, p)[0] && r.value.id in s.ledgers
  {
    var q := Held(s.holds, p);
    if q != [] && q[0].id in s.ledgers then Some(q[0]) else None
  }

  /** A message goes on unchanged. */
  function Carry(s: System, from: Place, to: Place): Move {
    match Head(s, from)
    case None => Still()
    case Some(m) => Pass(from, to, m, s.ledgers[m.id], [])
  }

  // ---- What each action moves ----------------------------------------------

  function EnvMove(e: EnvAct): Move {
    match e
    case Submit(m) => Arrive(if m.deliverAt.Some? then InDelays(m.id) else InQueue(m.topic), m)
    case SubmitToMain(m) => Arrive(InMain, m)
    case _ => Still()
  }

  function EnvControl(s: System, e: EnvAct): System
    requires (e.DeleteWorker? || e.CloseInbox?) ==> e.w in s.workers
  {
    match e
    case RegisterTopic(t) => s.(topics := s.topics + {t})
    case StartDispatcher(d, node, t) => s.(dispatchers := s.dispatchers[d := Dispatcher(node, t, [], 0, DIdle)])
    case CreateWorker(w, kind, t) => s.(workers := s.workers[w := WorkerState(kind, t, true, true, WIdle)])
    case DeleteWorker(w) => s.(workers := s.workers[w := s.workers[w].(alive := false)])
    case CloseInbox(w) => s.(workers := s.workers[w := s.workers[w].(open := false)])
    case _ => s
  }

  /** A claimed message meets the dispatcher's cached names. */
  function ClaimMove(s: System, d: string, m: EMessage): Move
    requires d in s.dispatchers && m.id in s.ledgers
  {
    var disp := s.dispatchers[d];
    var l := s.ledgers[m.id];
    match Decide(disp.node, disp.cached, disp.cursor, m)
    case NoWorkers => Still()
    case Deliver(i, _) =>
      if InboxTakes(s, disp.cached[i]) then Pass(AtDispatcher(d), InInbox(disp.cached[i]), Stamp(m, disp.cached[i]), l, [])
      else Still()
    case Relay(copy) => Pass(AtDispatcher(d), AtDispatcher(d), copy, Relayed(l), [])
    case Drop => Pass(AtDispatcher(d), Dropped, m, l, [])
  }

  function ClaimControl(s: System, d: string, m: EMessage): Dispatcher
    requires d in s.dispatchers
  {
    var disp := s.dispatchers[d];
    match Decide(disp.node, disp.cached, disp.cursor, m)
    case NoWorkers => disp.(phase := DNacking)
    case Deliver(i, cursor) => disp.(cursor := cursor, phase := if InboxTakes(s, disp.cached[i]) then DDelivered else DNacking)
    case Relay(_) => disp.(phase := DRelaying)
    case Drop => disp.(phase := DIdle)
  }

  function DispatcherMove(s: System, d: string, a: DispatcherAct): Move
    requires d in s.dispatchers
  {
    var queue := InQueue(s.dispatchers[d].topic);
    match a
    case ClaimNext => Carry(s, queue, AtDispatcher(d))
    case DispatchClaim =>
      (match Head(s, AtDispatcher(d)) case None => Still() case Some(m) => ClaimMove(s, d, m))
    case NackClaim => Carry(s, AtDispatcher(d), queue)
    case SendRelay => Carry(s, AtDispatcher(d), queue)
    case FailRelay => Carry(s, AtDispatcher(d), Place.Failed)
    case _ => Still()
  }

  function DispatcherControl(s: System, d: string, a: DispatcherAct): Dispatcher
    requires d in s.dispatchers
  {
    var disp := s.dispatchers[d];
    match a
    case ClaimNext => disp.(phase := DClaimed)
    case RefreshCache(names) =>
      disp.(cached := names, cursor := if names == [] then disp.cursor else disp.cursor % |names|)
    case DispatchClaim =>
      (match Head(s, AtDispatcher(d)) case None => disp case Some(m) => ClaimControl(s, d, m))
    case _ => disp.(phase := DIdle)
  }

  /** `TopicRouter::send` as a worker calls it: a delivery time goes to the delay store, anything else to a queue. */
  function RoutedTo(w: string, c: EMessage): Place {
    if c.deliverAt.Some? then InDelays(c.id) else AtWorker(w)
  }

  function RoutedPhase(c: EMessage): WorkerPhase {
    if c.deliverAt.Some? then WIdle else WSending(c.topic)
  }

  function Misrouted(s: System, w: string, m: EMessage): bool
    requires w in s.workers
  {
    !s.workers[w].kind.Ephemeral? && WP.IsMisrouted(w, m)
  }

  function Disposition(s: System, w: string, m: EMessage, a: WorkerAct): WP.Disposition
    requires w in s.workers && a.Handle?
  {
    WP.Run(s.workers[w].topic, m, m.(payload := a.payload), a.ack, a.now).disposition
  }

  function HandleMove(s: System, w: string, m: EMessage, a: WorkerAct): Move
    requires w in s.workers && a.Handle? && m.id in s.ledgers
  {
    var l := s.ledgers[m.id];
    var topic := s.workers[w].topic;
    if Misrouted(s, w, m) then
      match Hop(m)
      case None => Pass(AtWorker(w), Dropped, m, l, [])
      case Some(copy) => Pass(AtWorker(w), AtWorker(w), copy, Relayed(l), [])
    else
      match Disposition(s, w, m, a)
      case Finished => Pass(AtWorker(w), Completed, m, Ran(l, w, topic, m, a, false), [])
      case Requeued(c) => Pass(AtWorker(w), AtWorker(w), c, Ran(l, w, topic, m, a, true), [])
      case Retried(c) => Pass(AtWorker(w), RoutedTo(w, c), c, Ran(l, w, topic, m, a, true), [])
      case DeadLettered(c) => Pass(AtWorker(w), RoutedTo(w, c), c, Opened(c), [Ran(l, w, topic, m, a, false)])
  }

  function HandleControl(s: System, w: string, m: EMessage, a: WorkerAct): WorkerPhase
    requires w in s.workers && a.Handle?
  {
    if Misrouted(s, w, m) then
      if Hop(m).None? then WIdle else WSending(s.workers[w].topic)
    else
      match Disposition(s, w, m, a)
      case Finished => WIdle
      case Requeued(c) => WSending(s.workers[w].topic)
      case Retried(c) => RoutedPhase(c)
      case DeadLettered(c) => RoutedPhase(c)
  }

  function FailMove(s: System, w: string, m: EMessage, ran: bool): Move
    requires m.id in s.ledgers
  {
    var l := s.ledgers[m.id];
    Pass(AtWorker(w), Place.Failed, m, if ran then l.(runs := l.runs + 1) else l, [])
  }

  function WorkerMove(s: System, w: string, a: WorkerAct): Move
    requires w in s.workers && (a.SendFrom? ==> s.workers[w].phase.WSending?)
  {
    match a
    case ReceiveInbox => Carry(s, InInbox(w), AtWorker(w))
    case ReceiveQueue => Carry(s, InQueue(s.workers[w].topic), AtWorker(w))
    case Handle(_, _, _) =>
      (match Head(s, AtWorker(w)) case None => Still() case Some(m) => HandleMove(s, w, m, a))
    case FailRun(ran) =>
      (match Head(s, AtWorker(w)) case None => Still() case Some(m) => FailMove(s, w, m, ran))
    case SendFrom => Carry(s, AtWorker(w), InQueue(s.workers[w].phase.dest))
    case FailSend => Carry(s, AtWorker(w), Place.Failed)
  }

  function WorkerControl(s: System, w: string, a: WorkerAct): WorkerPhase
    requires w in s.workers
  {
    match a
    case ReceiveInbox => WHolding
    case ReceiveQueue => WHolding
    case Handle(_, _, _) =>
      (match Head(s, AtWorker(w)) case None => WIdle case Some(m) => HandleControl(s, w, m, a))
    case _ => WIdle
  }

  /** One message of a `recv` batch: forward, relay, drop, hand to an ephemeral worker, or give back. */
  function RouteMove(s: System, m: EMessage, choice: Option<string>, ephemeral: string): Move
    requires m.id in s.ledgers
    requires choice.Some? ==> choice.value in s.workers
  {
    var l := s.ledgers[m.id];
    var giveBack := Pass(InBatch, InRouterNack, m, l, []);
    if m.topic !in s.topics then giveBack
    else if choice.Some? then
      var dest := s.workers[choice.value].topic;
      if HasRoom(s, dest) then Pass(InBatch, InQueue(dest), m, l, []) else giveBack
    else if m.toWorker.Some? then
      match Hop(m)
      case None => Pass(InBatch, Dropped, m, l, [])
      case Some(copy) => if HasRoom(s, m.topic) then Pass(InBatch, InQueue(m.topic), copy, Relayed(l), []) else giveBack
    else Pass(InBatch, AtWorker(ephemeral), m, l, [])
  }

  function FetchMove(s: System, id: string, m: EMessage): Move
    requires m.id in s.ledgers
  {
    Pass(InDelays(id), InReady, m.(deliverAt := None), s.ledgers[m.id], [])
  }

  function LoopMove(s: System, a: LoopAct): Move
    requires a.RouteMain? && a.choice.Some? ==> a.choice.value in s.workers
  {
    match a
    case FetchReady(id, _) => (match Head(s, InDelays(id)) case None => Still() case Some(m) => FetchMove(s, id, m))
    case SendReady => (match Head(s, InReady) case None => Still() case Some(m) => Carry(s, InReady, InQueue(m.topic)))
    case FailReady => Carry(s, InReady, Place.Failed)
    case ClaimMain => Carry(s, InMain, InBatch)
    case RouteMain(choice, ephemeral) =>
      (match Head(s, InBatch) case None => Still() case Some(m) => RouteMove(s, m, choice, ephemeral))
    case NackMain => Carry(s, InRouterNack, InMain)
  }

  function LoopControl(s: System, a: LoopAct): System
    requires a.RouteMain? && a.choice.Some? ==> a.choice.value in s.workers
  {
    var v := LoopMove(s, a);
    if a.RouteMain? && v.put.Some? && v.put.value.place == AtWorker(a.ephemeral)
    then s.(workers := s.workers[a.ephemeral := WorkerState(Ephemeral, v.put.value.msg.topic, true, false, WHolding)])
    else s
  }

  // ---- The transition function ---------------------------------------------

  ghost function MoveOf(s: System, step: Step): (v: Move)
    requires Enabled(s, step)
  {
    match step
    case Env(e) => EnvMove(e)
    case Disp(d, a) => DispatcherMove(s, d, a)
    case Work(w, a) => WorkerMove(s, w, a)
    case Loop(a) => LoopMove(s, a)
  }

  /** The control state after a step: topics, dispatchers and workers. */
  ghost function ControlOf(s: System, step: Step): System
    requires Enabled(s, step)
  {
    match step
    case Env(e) => EnvControl(s, e)
    case Disp(d, a) => s.(dispatchers := s.dispatchers[d := DispatcherControl(s, d, a)])
    case Work(w, a) => s.(workers := s.workers[w := s.workers[w].(phase := WorkerControl(s, w, a))])
    case Loop(a) => LoopControl(s, a)
  }

  ghost function Next(s: System, step: Step): System
    requires Enabled(s, step)
  {
    var moved := Apply(s, MoveOf(s, step));
    var control := ControlOf(s, step);
    moved.(topics := control.topics, dispatchers := control.dispatchers, workers := control.workers)
  }
}

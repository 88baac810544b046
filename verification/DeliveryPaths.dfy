/**
 Where each step of the delivery protocol takes a message, and what follows for every
 run: how a message comes to be completed, and what becomes of its payload.
 */
module DeliveryPaths {
  import opened Messages
  import opened Dispatch
  import opened Delivery
  import opened DeliveryInvariant
  import opened DeliverySteps
  import opened DeliveryRuns
  import opened DeliveryEffort
  import WP = WorkerProcess

  /** The first message of one place leaves it, `copy` is last in another, and every other place stays as it was. */
  ghost predicate Moved(s: System, s': System, from: Place, to: Place, copy: EMessage) {
    && Held(s.holds, from) != []
    && forall p :: Held(s'.holds, p) ==
         (if p == from then Held(s.holds, p)[1..] else Held(s.holds, p)) + (if p == to then [copy] else [])
  }

  predicate Puts(v: Move, p: Place) {
    v.put.Some? && v.put.value.place == p
  }

  ghost predicate Unmoved(s: System, s': System) {
    forall p :: Held(s'.holds, p) == Held(s.holds, p)
  }

  /** What a move that is lawful does to the places. */
  ghost predicate MovedBy(s: System, s': System, v: Move) {
    if v == Still() then Unmoved(s, s')
    else v.take.Some? && v.put.Some? && Moved(s, s', v.take.value, v.put.value.place, v.put.value.msg)
  }

  lemma ShiftedIsMoved(s: System, s': System, v: Move)
    requires Shifted(s.holds, s'.holds, v)
    ensures MovedBy(s, s', v)
  {
    assert ShiftedAt(s.holds, s'.holds, v, InMain);
    forall p
      ensures if v == Still() then Held(s'.holds, p) == Held(s.holds, p)
              else Held(s'.holds, p) == (if p == v.take.value then Held(s.holds, p)[1..] else Held(s.holds, p)) +
                                        (if p == v.put.value.place then [v.put.value.msg] else [])
    {
      assert ShiftedAt(s.holds, s'.holds, v, p);
    }
  }

  lemma HoldsOfMove(s: System, step: Step)
    requires Enabled(s, step)
    ensures Next(s, step).holds == Apply(s, MoveOf(s, step)).holds
  {
  }

  lemma MoveMoves(s: System, step: Step)
    requires Inv(s) && Enabled(s, step) && !step.Env?
    ensures MovedBy(s, Next(s, step), MoveOf(s, step))
  {
    MoveOfStep(s, step);
    MoveShifts(s, MoveOf(s, step));
    HoldsOfMove(s, step);
    ShiftedIsMoved(s, Next(s, step), MoveOf(s, step));
  }

  // ---- Messages passed on as they are ----------------------------------------

  /** From where to where a step passes a message on unchanged. */
  function Leg(s: System, step: Step): Option<(Place, Place)> {
    match step
    case Disp(d, a) =>
      if d !in s.dispatchers then None
      else
        var queue := InQueue(s.dispatchers[d].topic);
        (match a
         case ClaimNext => Some((queue, AtDispatcher(d)))
         case NackClaim => Some((AtDispatcher(d), queue))
         case SendRelay => Some((AtDispatcher(d), queue))
         case FailRelay => Some((AtDispatcher(d), Place.Failed))
         case _ => None)
    case Work(w, b) =>
      if w !in s.workers then None
      else
        (match b
         case ReceiveInbox => Some((InInbox(w), AtWorker(w)))
         case ReceiveQueue => Some((InQueue(s.workers[w].topic), AtWorker(w)))
         case SendFrom =>
           if s.workers[w].phase.WSending? then Some((AtWorker(w), InQueue(s.workers[w].phase.dest))) else None
         case FailSend => Some((AtWorker(w), Place.Failed))
         case _ => None)
    case Loop(c) =>
      (match c
       case SendReady =>
         var ready := Held(s.holds, InReady);
         if ready == [] then None else Some((InReady, InQueue(ready[0].topic)))
       case FailReady => Some((InReady, Place.Failed))
       case ClaimMain => Some((InMain, InBatch))
       case NackMain => Some((InRouterNack, InMain))
       case _ => None)
    case Env(_) => None
  }

  lemma DispatcherHasAMessage(s: System, d: string, a: DispatcherAct)
    requires d in s.dispatchers && DispatcherEnabled(s, d, a) && DispatcherHand(s, d) && Leg(s, Disp(d, a)).Some?
    ensures Held(s.holds, Leg(s, Disp(d, a)).value.0) != []
  {
  }

  lemma WorkerHasAMessage(s: System, w: string, b: WorkerAct)
    requires w in s.workers && WorkerEnabled(s, w, b) && WorkerHand(s, w) && Leg(s, Work(w, b)).Some?
    ensures Held(s.holds, Leg(s, Work(w, b)).value.0) != []
  {
  }

  lemma LegHasAMessage(s: System, step: Step)
    requires Agents(s) && Enabled(s, step) && Leg(s, step).Some? && forall p :: HeadKnown(s, p)
    ensures Held(s.holds, Leg(s, step).value.0) != [] && Head(s, Leg(s, step).value.0).Some?
  {
    match step {
      case Disp(d, a) => DispatcherHasAMessage(s, d, a);
      case Work(w, b) => WorkerHasAMessage(s, w, b);
      case _ =>
    }
    assert HeadKnown(s, Leg(s, step).value.0);
  }

  lemma LegIsACarry(s: System, step: Step)
    requires Enabled(s, step) && Leg(s, step).Some? && Head(s, Leg(s, step).value.0).Some?
    ensures MoveOf(s, step) == Carry(s, Leg(s, step).value.0, Leg(s, step).value.1)
  {
  }

  lemma CarryKeepsLedgers(s: System, from: Place, to: Place)
    requires Head(s, from).Some?
    ensures Apply(s, Carry(s, from, to)).ledgers == s.ledgers && Apply(s, Carry(s, from, to)).closed == s.closed
  {
  }

  /**
   Claims, receives, sends and returns pass the first message of their place on as it
   is: a nack back onto the topic's own queue, a relay onto the same, a worker's send
   onto the queue it was meant for, a due delay onto the queue of its topic, a message
   the receive loop could not place back into the main queue. Only failed calls let go.
   */
  lemma PassedOnUnchanged(s: System, step: Step)
    requires Inv(s) && Enabled(s, step) && Leg(s, step).Some?
    ensures
      var (from, to) := Leg(s, step).value;
      var s' := Next(s, step);
      && Held(s.holds, from) != [] && Moved(s, s', from, to, Held(s.holds, from)[0])
      && s'.ledgers == s.ledgers && s'.closed == s.closed
  {
    var (from, to) := Leg(s, step).value;
    HeadsKnown(s);
    LegHasAMessage(s, step);
    LegIsACarry(s, step);
    CarryKeepsLedgers(s, from, to);
    MoveMoves(s, step);
  }

  // ---- Arrivals and due delays -------------------------------------------------

  lemma ArrivalNext(s: System, e: EnvAct)
    requires EnvEnabled(s, e) && (e.Submit? || e.SubmitToMain?)
    ensures Next(s, Env(e)).holds == PutToken(s.holds, EnvMove(e).put.value)
    ensures Next(s, Env(e)).ledgers == s.ledgers[e.m.id := Opened(e.m)]
  {
    OneBook(s.ledgers, e.m.id, Opened(e.m));
  }

  /** A submitted message waits in the delay store if it has a time, else on the queue of its topic, or in the main queue. */
  lemma ArrivesWhereItIsSent(s: System, e: EnvAct)
    requires Inv(s) && Enabled(s, Env(e)) && (e.Submit? || e.SubmitToMain?)
    ensures
      var to := if e.SubmitToMain? then InMain else if e.m.deliverAt.Some? then InDelays(e.m.id) else InQueue(e.m.topic);
      var s' := Next(s, Env(e));
      && (forall p :: Held(s'.holds, p) == Held(s.holds, p) + (if p == to then [e.m] else []))
      && s'.ledgers == s.ledgers[e.m.id := Opened(e.m)]
  {
    AbsentWithoutLedger(s, e.m.id);
    SlotEmpty(s.holds, e.m.id);
    PutShape(s.holds, EnvMove(e).put.value);
    ArrivalNext(s, e);
  }

  /** The scheduler takes a due record, and no other, out of its slot and clears its time. */
  lemma DueDelayIsFetched(s: System, id: string, now: Time)
    requires Inv(s) && Enabled(s, Loop(FetchReady(id, now)))
    ensures
      var m := Held(s.holds, InDelays(id))[0];
      && m.id == id && m.deliverAt.Some? && m.deliverAt.value <= now
      && Moved(s, Next(s, Loop(FetchReady(id, now))), InDelays(id), InReady, m.(deliverAt := None))
  {
    HeadsKnown(s);
    assert HeadKnown(s, InDelays(id));
    assert SlotOf(id, Held(s.holds, InDelays(id)));
    MoveMoves(s, Loop(FetchReady(id, now)));
  }

  // ---- The dispatcher's claim --------------------------------------------------

  /** The position of the cached worker a claim is for, if any. */
  function Chosen(disp: Dispatcher, m: EMessage): Option<nat> {
    if disp.cached == [] then None
    else match m.toWorker
      case None => Some(disp.cursor % |disp.cached|)
      case Some(target) => FirstAnswer(disp.node, disp.cached, target)
  }

  /** What becomes of the claim `m` in the hand of a dispatcher. */
  ghost predicate ClaimGoes(s: System, s': System, d: string, m: EMessage)
    requires d in s.dispatchers && d in s'.dispatchers
  {
    var disp, phase, hand := s.dispatchers[d], s'.dispatchers[d].phase, AtDispatcher(d);
    match Chosen(disp, m)
    case Some(i) =>
      i < |disp.cached| &&
      var w := disp.cached[i];
      if InboxTakes(s, w) then Moved(s, s', hand, InInbox(w), m.(toWorker := Some(w))) && phase == DDelivered
      else Unmoved(s, s') && phase == DNacking
    case None =>
      if disp.cached == [] then Unmoved(s, s') && phase == DNacking
      else if m.attempts < MAX_TARGETED_HOPS then Moved(s, s', hand, hand, m.(attempts := m.attempts + 1)) && phase == DRelaying
      else Moved(s, s', hand, Dropped, m) && phase == DIdle
  }

  lemma ClaimedIsHead(s: System, d: string)
    requires Inv(s) && Enabled(s, Disp(d, DispatchClaim))
    ensures Head(s, AtDispatcher(d)).Some?
  {
    HeadsKnown(s);
    assert HeadKnown(s, AtDispatcher(d)) && DispatcherHand(s, d);
  }

  lemma ClaimMoveGoes(s: System, s': System, d: string, m: EMessage)
    requires d in s.dispatchers && m.id in s.ledgers && MovedBy(s, s', ClaimMove(s, d, m))
    requires s'.dispatchers == s.dispatchers[d := ClaimControl(s, d, m)]
    ensures ClaimGoes(s, s', d, m)
  {
  }

  /**
   A claim enters the inbox of the worker it is for under that worker's name, or waits
   to be given back if that inbox does not take it or no worker is cached; aimed at
   somebody else it waits to be relayed with one more attempt, and is dropped at the cap.
   */
  lemma ClaimGoesWhereItShould(s: System, d: string)
    requires Inv(s) && Enabled(s, Disp(d, DispatchClaim))
    ensures Held(s.holds, AtDispatcher(d)) != []
    ensures ClaimGoes(s, Next(s, Disp(d, DispatchClaim)), d, Held(s.holds, AtDispatcher(d))[0])
  {
    ClaimedIsHead(s, d);
    MoveMoves(s, Disp(d, DispatchClaim));
    ClaimMoveGoes(s, Next(s, Disp(d, DispatchClaim)), d, Head(s, AtDispatcher(d)).value);
  }

  // ---- The receive loop ----------------------------------------------------------

  /** What becomes of the first message of a batch, given the worker found for it, if any. */
  ghost predicate RouteGoes(s: System, s': System, m: EMessage, choice: Option<string>, ephemeral: string)
    requires choice.Some? ==> choice.value in s.workers
  {
    if m.topic !in s.topics then Moved(s, s', InBatch, InRouterNack, m)
    else if choice.Some? then
      var queue := s.workers[choice.value].topic;
      Moved(s, s', InBatch, if HasRoom(s, queue) then InQueue(queue) else InRouterNack, m)
    else if m.toWorker.None? then
      && Moved(s, s', InBatch, AtWorker(ephemeral), m)
      && ephemeral in s'.workers && s'.workers[ephemeral] == WorkerState(Ephemeral, m.topic, true, false, WHolding)
    else if m.attempts >= MAX_TARGETED_HOPS then Moved(s, s', InBatch, Dropped, m)
    else if HasRoom(s, m.topic) then Moved(s, s', InBatch, InQueue(m.topic), m.(attempts := m.attempts + 1))
    else Moved(s, s', InBatch, InRouterNack, m)
  }

  lemma RouteMoveGoes(s: System, s': System, m: EMessage, choice: Option<string>, ephemeral: string)
    requires Head(s, InBatch) == Some(m) && (choice.Some? ==> choice.value in s.workers)
    requires MovedBy(s, s', RouteMove(s, m, choice, ephemeral))
    requires s'.workers == LoopControl(s, RouteMain(choice, ephemeral)).workers
    ensures RouteGoes(s, s', m, choice, ephemeral)
  {
  }

  /**
   The receive loop forwards a message to the queue of the worker found for it, gives an
   untargeted one nobody is found for to a one-shot worker, relays a targeted one with
   one more attempt or drops it at the cap, and keeps to give back whatever has no room.
   */
  lemma RoutedWhereItShould(s: System, choice: Option<string>, ephemeral: string)
    requires Inv(s) && Enabled(s, Loop(RouteMain(choice, ephemeral)))
    ensures Held(s.holds, InBatch) != []
    ensures RouteGoes(s, Next(s, Loop(RouteMain(choice, ephemeral))), Held(s.holds, InBatch)[0], choice, ephemeral)
  {
    HeadsKnown(s);
    assert HeadKnown(s, InBatch);
    MoveMoves(s, Loop(RouteMain(choice, ephemeral)));
    RouteMoveGoes(s, Next(s, Loop(RouteMain(choice, ephemeral))), Head(s, InBatch).value, choice, ephemeral);
  }

  // ---- The agents ----------------------------------------------------------------

  /** The phase a dispatcher's step leaves it in, where the claim does not decide. */
  function PhaseAfter(disp: Dispatcher, a: DispatcherAct): DispatcherPhase {
    match a
    case ClaimNext => DClaimed
    case RefreshCache(_) => disp.phase
    case DispatchClaim => disp.phase
    case _ => DIdle
  }

  /** A dispatcher's step changes that dispatcher only, and leaves its hand free once the message is out of it. */
  lemma DispatcherGoesOn(s: System, d: string, a: DispatcherAct, other: string)
    requires Enabled(s, Disp(d, a))
    ensures
      var s' := Next(s, Disp(d, a));
      && s'.dispatchers.Keys == s.dispatchers.Keys && s'.workers == s.workers && s'.topics == s.topics
      && (other in s.dispatchers && other != d ==> s'.dispatchers[other] == s.dispatchers[other])
      && s'.dispatchers[d].topic == s.dispatchers[d].topic && s'.dispatchers[d].node == s.dispatchers[d].node
      && s'.dispatchers[d].cached == (if a.RefreshCache? then a.names else s.dispatchers[d].cached)
      && (!a.DispatchClaim? ==> s'.dispatchers[d].phase == PhaseAfter(s.dispatchers[d], a))
  {
  }

  /** A worker's step changes that worker's phase only: holding after a receive, idle after a send or a failure. */
  lemma WorkerGoesOn(s: System, w: string, b: WorkerAct, other: string)
    requires Enabled(s, Work(w, b))
    ensures
      var s' := Next(s, Work(w, b));
      && s'.workers.Keys == s.workers.Keys && s'.dispatchers == s.dispatchers && s'.topics == s.topics
      && (other in s.workers && other != w ==> s'.workers[other] == s.workers[other])
      && s'.workers[w].(phase := s.workers[w].phase) == s.workers[w]
      && (b.ReceiveInbox? || b.ReceiveQueue? ==> s'.workers[w].phase == WHolding)
      && (b.SendFrom? || b.FailSend? || b.FailRun? ==> s'.workers[w].phase == WIdle)
  {
  }

  /** What a lifecycle step does to topics, dispatchers and workers; messages stay where they are. */
  lemma LifecycleDoes(s: System, e: EnvAct)
    requires Enabled(s, Env(e)) && !e.Submit? && !e.SubmitToMain?
    ensures
      var s' := Next(s, Env(e));
      && s'.holds == s.holds
      && s'.topics == (if e.RegisterTopic? then s.topics + {e.topic} else s.topics)
      && (e.StartDispatcher? ==> s'.dispatchers == s.dispatchers[e.d := Dispatcher(e.node, e.topic, [], 0, DIdle)])
      && (!e.StartDispatcher? ==> s'.dispatchers == s.dispatchers)
      && (e.CreateWorker? ==>
            e.w !in s.workers && e.w in s'.workers && s'.workers[e.w].kind == e.kind && s'.workers[e.w].topic == e.topic
            && s'.workers[e.w].alive && s'.workers[e.w].open && s'.workers[e.w].phase == WIdle)
      && (e.DeleteWorker? ==> s.workers[e.w].alive && !s'.workers[e.w].alive && s'.workers[e.w].open == s.workers[e.w].open)
      && (e.CloseInbox? ==> !s.workers[e.w].alive && !s'.workers[e.w].open)
      && forall w :: w in s.workers && !((e.DeleteWorker? || e.CloseInbox?) && w == e.w) ==>
           w in s'.workers && s'.workers[w] == s.workers[w]
  {
  }

  /** Deleted, or with its inbox closed. */
  predicate Gone(s: System, w: string) {
    w in s.workers && !s.workers[w].alive
  }

  predicate Shut(s: System, w: string) {
    w in s.workers && !s.workers[w].open
  }

  lemma StepKeepsGone(s: System, step: Step, w: string)
    requires Enabled(s, step) && w in s.workers
    ensures w in Next(s, step).workers
    ensures Gone(s, w) ==> Gone(Next(s, step), w) && !(step.Work? && step.w == w)
    ensures Shut(s, w) ==> Shut(Next(s, step), w)
  {
  }

  /** Over every run, a deleted worker takes no further step. */
  lemma {:induction false} DeletedWorkerDoesNothing(states: seq<System>, steps: seq<Step>, i: nat, n: nat, w: string)
    requires IsRun(states, steps) && i <= n <= |steps| && Gone(states[i], w)
    ensures Gone(states[n], w) && forall k :: i <= k < n ==> !(steps[k].Work? && steps[k].w == w)
    decreases n - i
  {
    if i < n {
      DeletedWorkerDoesNothing(states, steps, i, n - 1, w);
      assert StepAt(states, steps, n - 1);
      StepKeepsGone(states[n - 1], steps[n - 1], w);
    }
  }

  lemma OnlyOpenInboxesGain(s: System, step: Step, w: string)
    requires Enabled(s, step) && Shut(s, w) && !step.Env?
    ensures !Puts(MoveOf(s, step), InInbox(w))
  {
  }

  lemma NoGain(s: System, s': System, v: Move, p: Place)
    requires MovedBy(s, s', v) && !Puts(v, p)
    ensures |Held(s'.holds, p)| <= |Held(s.holds, p)|
  {
  }

  lemma ShutInboxStep(s: System, step: Step, w: string)
    requires Inv(s) && Enabled(s, step) && Shut(s, w)
    ensures |Held(Next(s, step).holds, InInbox(w))| <= |Held(s.holds, InInbox(w))|
  {
    if step.Env? {
      HoldsOfMove(s, step);
    } else {
      OnlyOpenInboxesGain(s, step, w);
      MoveMoves(s, step);
      NoGain(s, Next(s, step), MoveOf(s, step), InInbox(w));
    }
  }

  lemma RunShutStep(states: seq<System>, steps: seq<Step>, k: nat, w: string)
    requires IsRun(states, steps) && k < |steps| && Shut(states[k], w)
    ensures Shut(states[k + 1], w) && |Held(states[k + 1].holds, InInbox(w))| <= |Held(states[k].holds, InInbox(w))|
  {
    assert StepAt(states, steps, k);
    RunInv(states, steps, k);
    StepKeepsGone(states[k], steps[k], w);
    ShutInboxStep(states[k], steps[k], w);
  }

  /** Over every run, a closed inbox gains no message. */
  lemma {:induction false} ClosedInboxGainsNothing(states: seq<System>, steps: seq<Step>, i: nat, n: nat, w: string)
    requires IsRun(states, steps) && i <= n <= |steps| && Shut(states[i], w)
    ensures Shut(states[n], w) && |Held(states[n].holds, InInbox(w))| <= |Held(states[i].holds, InInbox(w))|
    decreases n - i
  {
    if i < n {
      ClosedInboxGainsNothing(states, steps, i, n - 1, w);
      RunShutStep(states, steps, n - 1, w);
    }
  }

  // ---- The handler's run -------------------------------------------------------

  /** The worker keeps the copy in hand to send it onto a queue. */
  ghost predicate Sends(s: System, s': System, w: string, c: EMessage, queue: string)
    requires w in s'.workers
  {
    Moved(s, s', AtWorker(w), AtWorker(w), c) && s'.workers[w].phase == WSending(queue)
  }

  /** The worker is rid of the message. */
  ghost predicate LetsGo(s: System, s': System, w: string, to: Place, c: EMessage)
    requires w in s'.workers
  {
    Moved(s, s', AtWorker(w), to, c) && s'.workers[w].phase == WIdle
  }

  /** Through the topic router: into the delay store if the copy has a time, else to be sent onto the queue of its topic. */
  ghost predicate Routes(s: System, s': System, w: string, c: EMessage)
    requires w in s'.workers
  {
    if c.deliverAt.Some? then LetsGo(s, s', w, InDelays(c.id), c) else Sends(s, s', w, c, c.topic)
  }

  function Buried(m: EMessage, topic: string): EMessage {
    m.(topic := "dead_letter." + topic, toWorker := None)
  }

  /** What becomes of a message a worker of this topic has run, by the handler's answer. */
  ghost predicate AnswerLeads(s: System, s': System, w: string, topic: string, m: EMessage, a: WorkerAct)
    requires w in s'.workers && a.Handle?
  {
    var after := m.(payload := a.payload);
    match a.ack
    case Ack =>
      if m.deliveryMode.Repeated? && m.deliveryMode.times != m.consumedCount + 1
      then Sends(s, s', w, after.(consumedCount := m.consumedCount + 1), topic)
      else LetsGo(s, s', w, Completed, m)
    case NoAck(delay, limit) =>
      var tried := after.(attempts := m.attempts + 1);
      if m.attempts + 1 >= limit then Routes(s, s', w, Buried(tried, topic))
      else if delay.None? then Sends(s, s', w, tried, topic)
      else if a.now + delay.value < WP.TIME_LIMIT then Routes(s, s', w, tried.(deliverAt := Some(a.now + delay.value)))
      else Routes(s, s', w, tried.(deliverAt := None))
    case Dead(_) => Routes(s, s', w, Buried(after, topic))
  }

  ghost predicate RunLeads(s: System, s': System, w: string, m: EMessage, a: WorkerAct)
    requires w in s.workers && w in s'.workers && a.Handle?
  {
    var topic := s.workers[w].topic;
    if Misrouted(s, w, m) then
      if m.attempts < MAX_TARGETED_HOPS then Sends(s, s', w, m.(attempts := m.attempts + 1), topic)
      else LetsGo(s, s', w, Dropped, m)
    else if IsSystemTopic(topic) then LetsGo(s, s', w, Completed, m)
    else AnswerLeads(s, s', w, topic, m, a)
  }

  lemma HandledIsHead(s: System, w: string, a: WorkerAct)
    requires Inv(s) && a.Handle? && Enabled(s, Work(w, a))
    ensures Head(s, AtWorker(w)).Some?
  {
    HeadsKnown(s);
    assert HeadKnown(s, AtWorker(w)) && WorkerHand(s, w);
  }

  lemma RetryLeads(s: System, s': System, w: string, m: EMessage, a: WorkerAct)
    requires w in s.workers && a.Handle? && a.ack.NoAck? && m.id in s.ledgers && MovedBy(s, s', HandleMove(s, w, m, a))
    requires w in s'.workers && s'.workers[w].phase == HandleControl(s, w, m, a)
    requires !Misrouted(s, w, m) && !IsSystemTopic(s.workers[w].topic)
    ensures AnswerLeads(s, s', w, s.workers[w].topic, m, a)
  {
  }

  lemma HandleMoveLeads(s: System, s': System, w: string, m: EMessage, a: WorkerAct)
    requires w in s.workers && a.Handle? && m.id in s.ledgers && MovedBy(s, s', HandleMove(s, w, m, a))
    requires w in s'.workers && s'.workers[w].phase == HandleControl(s, w, m, a)
    ensures RunLeads(s, s', w, m, a)
  {
    if !Misrouted(s, w, m) && !IsSystemTopic(s.workers[w].topic) {
      match a.ack {
        case Ack =>
        case NoAck(_, _) => RetryLeads(s, s', w, m, a);
        case Dead(_) =>
      }
    }
  }

  /**
   One run in terms of the handler's answer: finished, counted and put back, tried
   again at once or after the delay, or dead-lettered at the limit or on request. A
   message that is somebody else's goes back with one more attempt.
   */
  lemma RunLeadsWhereItShould(s: System, w: string, a: WorkerAct)
    requires Inv(s) && a.Handle? && Enabled(s, Work(w, a))
    ensures Held(s.holds, AtWorker(w)) != []
    ensures RunLeads(s, Next(s, Work(w, a)), w, Held(s.holds, AtWorker(w))[0], a)
  {
    HandledIsHead(s, w, a);
    MoveMoves(s, Work(w, a));
    HandleMoveLeads(s, Next(s, Work(w, a)), w, Head(s, AtWorker(w)).value, a);
  }

  // ---- How a message comes to be completed -------------------------------------

  /** The step is the last run of message `m`. */
  ghost predicate Completes(s: System, step: Step, m: EMessage) {
    && step.Work? && step.b.Handle? && RunsNow(s, step.w, m)
    && (|| IsSystemTopic(s.workers[step.w].topic)
        || (step.b.ack.Ack? && (m.deliveryMode.Repeated? ==> m.deliveryMode.times == m.consumedCount + 1)))
  }

  lemma HandleCompletes(s: System, w: string, m: EMessage, a: WorkerAct)
    requires w in s.workers && a.Handle? && WorkerEnabled(s, w, a) && Head(s, AtWorker(w)) == Some(m)
    ensures
      var v := HandleMove(s, w, m, a);
      && v.put.Some? && v.take == Some(AtWorker(w))
      && (Puts(v, Completed) <==> Completes(s, Work(w, a), m)) && (Puts(v, Completed) ==> v.put.value.msg == m)
  {
  }

  lemma OthersDoNotComplete(s: System, step: Step)
    requires Enabled(s, step) && !(step.Work? && step.b.Handle?)
    ensures !Puts(MoveOf(s, step), Completed)
    ensures MoveOf(s, step).take.Some? ==> !MoveOf(s, step).take.value.Completed?
  {
  }

  lemma CompletedGains(s: System, s': System, v: Move)
    requires MovedBy(s, s', v) && (v.take.Some? ==> !v.take.value.Completed?)
    ensures Held(s'.holds, Completed) == Held(s.holds, Completed) + if Puts(v, Completed) then [v.put.value.msg] else []
  {
  }

  lemma HandleStepCompletes(s: System, w: string, a: WorkerAct)
    requires Inv(s) && a.Handle? && Enabled(s, Work(w, a))
    ensures Head(s, AtWorker(w)).Some?
    ensures
      var m := Head(s, AtWorker(w)).value;
      Held(Next(s, Work(w, a)).holds, Completed) ==
        Held(s.holds, Completed) + if Completes(s, Work(w, a), m) then [m] else []
  {
    HandledIsHead(s, w, a);
    var m := Head(s, AtWorker(w)).value;
    MoveMoves(s, Work(w, a));
    HandleCompletes(s, w, m, a);
    CompletedGains(s, Next(s, Work(w, a)), HandleMove(s, w, m, a));
  }

  lemma OtherStepsDoNotComplete(s: System, step: Step)
    requires Inv(s) && Enabled(s, step) && !(step.Work? && step.b.Handle?)
    ensures Held(Next(s, step).holds, Completed) == Held(s.holds, Completed)
  {
    OthersDoNotComplete(s, step);
    if step.Env? {
      HoldsOfMove(s, step);
    } else {
      MoveMoves(s, step);
      CompletedGains(s, Next(s, step), MoveOf(s, step));
    }
  }

  /** A step completes a message exactly if it is a handler's last run of it, and then no other. */
  lemma CompletedOnlyByItsLastRun(s: System, step: Step, m: EMessage)
    requires Inv(s) && Enabled(s, step)
    ensures
      var was, now := Held(s.holds, Completed), Held(Next(s, step).holds, Completed);
      && (Completes(s, step, m) ==> now == was + [m])
      && (now != was ==> exists last :: Completes(s, step, last) && now == was + [last])
  {
    if step.Work? && step.b.Handle? {
      HandleStepCompletes(s, step.w, step.b);
    } else {
      OtherStepsDoNotComplete(s, step);
    }
  }

  /** Over every run, what is completed was put there by a handler's last run of it. */
  lemma {:induction false} CompletedByAHandler(states: seq<System>, steps: seq<Step>, n: nat, k: nat)
    requires IsRun(states, steps) && n <= |steps| && k < |Held(states[n].holds, Completed)|
    ensures exists i :: 0 <= i < n && Completes(states[i], steps[i], Held(states[n].holds, Completed)[k])
  {
    if n > 0 {
      assert StepAt(states, steps, n - 1);
      RunInv(states, steps, n - 1);
      var m := Held(states[n].holds, Completed)[k];
      CompletedOnlyByItsLastRun(states[n - 1], steps[n - 1], m);
      if k < |Held(states[n - 1].holds, Completed)| {
        CompletedByAHandler(states, steps, n - 1, k);
        var i :| 0 <= i < n - 1 && Completes(states[i], steps[i], Held(states[n - 1].holds, Completed)[k]);
        assert Completes(states[i], steps[i], m);
      } else {
        assert Completes(states[n - 1], steps[n - 1], m);
      }
    }
  }

  lemma DoneInInv(s: System, k: nat)
    requires Books(s) && k < |Held(s.holds, Completed)|
    ensures Held(s.holds, Completed)[k].id in s.ledgers && Done(s.ledgers[Held(s.holds, Completed)[k].id])
  {
  }

  lemma OwingInInv(s: System, p: Place, k: nat)
    requires Books(s) && !Final(p) && k < |Held(s.holds, p)|
    ensures
      var m := Held(s.holds, p)[k];
      m.id in s.ledgers && var l := s.ledgers[m.id]; Owed(l.first) >= 1 ==> l.runs - l.retries < Owed(l.first)
  {
  }

  /**
   Over every run, a completed message has been run, and on business topics exactly as
   often as it owed when it entered, retried runs not counted; a message on its way has
   been run less often than that.
   */
  lemma CompletedExactlyWhenRunAsOwed(states: seq<System>, steps: seq<Step>, n: nat, p: Place, k: nat)
    requires IsRun(states, steps) && n <= |steps| && k < |Held(states[n].holds, p)|
    ensures Held(states[n].holds, p)[k].id in states[n].ledgers
    ensures
      var l := states[n].ledgers[Held(states[n].holds, p)[k].id];
      && (p.Completed? ==> l.runs > l.retries && (!l.system ==> l.runs - l.retries == Owed(l.first)))
      && (!Final(p) && Owed(l.first) >= 1 ==> l.runs - l.retries < Owed(l.first))
  {
    RunInv(states, steps, n);
    if p.Completed? {
      DoneInInv(states[n], k);
    } else if !Final(p) {
      OwingInInv(states[n], p, k);
    }
  }

  // ---- The payload ---------------------------------------------------------------

  lemma PayloadInInv(s: System, p: Place, k: nat)
    requires Books(s) && !Final(p) && k < |Held(s.holds, p)|
    ensures
      var m := Held(s.holds, p)[k];
      && m.id in s.ledgers && m.payload == s.ledgers[m.id].payload
      && (s.ledgers[m.id].runs == 0 ==> m.payload == s.ledgers[m.id].first.payload)
  {
  }

  /** No step dead-letters the message. */
  ghost predicate Unburied(states: seq<System>, steps: seq<Step>, i: nat, n: nat, id: string)
    requires n <= |steps| < |states|
  {
    forall k :: i <= k < n && Enabled(states[k], steps[k]) && Touches(states[k], steps[k], id) ==>
      !DeadLetters(states[k], steps[k])
  }

  predicate Submits(step: Step, m: EMessage) {
    step == Env(Submit(m)) || step == Env(SubmitToMain(m))
  }

  lemma SubmittedIsFirst(s: System, step: Step, m: EMessage)
    requires Inv(s) && Enabled(s, step) && Submits(step, m)
    ensures m.id in Next(s, step).ledgers && Next(s, step).ledgers[m.id].first == m
  {
    ArrivesWhereItIsSent(s, step.e);
  }

  lemma RunKeepsFirst(states: seq<System>, steps: seq<Step>, k: nat, id: string)
    requires IsRun(states, steps) && k < |steps| && id in states[k].ledgers && Unburied(states, steps, k, k + 1, id)
    ensures id in states[k + 1].ledgers && states[k + 1].ledgers[id].first == states[k].ledgers[id].first
  {
    RunInv(states, steps, k);
    assert StepAt(states, steps, k);
    FirstKept(states[k], steps[k], id);
  }

  lemma {:induction false} FirstIsAsSubmitted(states: seq<System>, steps: seq<Step>, i: nat, n: nat, m: EMessage)
    requires IsRun(states, steps) && i < n <= |steps| && Submits(steps[i], m) && Unburied(states, steps, i + 1, n, m.id)
    ensures m.id in states[n].ledgers && states[n].ledgers[m.id].first == m
    decreases n - i
  {
    if n == i + 1 {
      assert StepAt(states, steps, i);
      RunInv(states, steps, i);
      SubmittedIsFirst(states[i], steps[i], m);
    } else {
      FirstIsAsSubmitted(states, steps, i, n - 1, m);
      RunKeepsFirst(states, steps, n - 1, m.id);
    }
  }

  /**
   Over every run, whatever queues, inboxes, relays, delays and retries a message has
   been through, it is still the one submitted, on its topic and in its mode, and
   until a handler has run it its payload is the one submitted.
   */
  lemma UnhandledMessageIsAsSubmitted(states: seq<System>, steps: seq<Step>, i: nat, n: nat, m: EMessage, p: Place, k: nat)
    requires IsRun(states, steps) && i < n <= |steps| && Submits(steps[i], m) && Unburied(states, steps, i + 1, n, m.id)
    requires !Final(p) && k < |Held(states[n].holds, p)| && Held(states[n].holds, p)[k].id == m.id
    ensures
      var now := Held(states[n].holds, p)[k];
      && now.topic == m.topic && now.deliveryMode == m.deliveryMode && m.id in states[n].ledgers
      && (states[n].ledgers[m.id].runs == 0 ==> now.payload == m.payload && now.consumedCount == m.consumedCount)
  {
    RunInv(states, steps, n);
    FirstIsAsSubmitted(states, steps, i, n, m);
    PayloadInInv(states[n], p, k);
  }
}

/**
 One run of a message through a worker: what the handler's answer does to the
 message, and which status updates the run reports to the write-ahead log.
 */
module WorkerProcess {
  import opened Messages
  import opened Dispatch

  /** A status update sent to the write-ahead log. */
  datatype Sync = Sync(messageId: string, topic: string, status: WalStatus, attempts: nat, error: Option<DeadReason>)

  /** Where a run leaves the message. */
  datatype Disposition =
    | Finished
    | Requeued(copy: EMessage)      // straight onto the worker's own topic queue
    | Retried(copy: EMessage)       // through the topic router, with a retry delay
    | DeadLettered(letter: EMessage) // through the topic router, onto the dead-letter topic

  datatype Outcome = Outcome(disposition: Disposition, syncs: seq<Sync>)

  /** Times at or past this point do not fit a system clock value. */
  const TIME_LIMIT: int := 0x8000_0000_0000_0000 * 1_000_000_000

  function CheckedAdd(now: Time, delay: nat): Option<Time> {
    if now + delay < TIME_LIMIT then Some(now + delay) else None
  }

  function Letter(workerTopic: string, m: EMessage): EMessage {
    m.(topic := DeadLetterTopic(workerTopic), toWorker := None)
  }

  function Marked(m: EMessage, status: WalStatus): Sync {
    Sync(m.id, m.topic, status, if status == Complete then m.attempts else 0, None)
  }

  function MarkedDead(m: EMessage, reason: DeadReason): Sync {
    Sync(m.id, m.topic, Failed, m.attempts, Some(reason))
  }

  /** What follows the handler's answer: `after` is the message as the pipeline left it. */
  function Settled(workerTopic: string, after: EMessage, ack: Ack, now: Time): Outcome {
    match ack
    case Ack =>
      if after.deliveryMode.Repeated? then
        var counted := after.(consumedCount := after.consumedCount + 1);
        if after.deliveryMode.times == counted.consumedCount then
          Outcome(Finished, [Marked(counted, Complete)])
        else
          Outcome(Requeued(counted), [Marked(counted, Pending), Marked(counted, Pending)])
      else
        Outcome(Finished, [Marked(after, Complete)])
    case NoAck(retryAfter, maxRetries) =>
      var tried := after.(attempts := after.attempts + 1);
      if tried.attempts >= maxRetries then
        var letter := Letter(workerTopic, tried);
        Outcome(DeadLettered(letter), [Marked(tried, Pending), MarkedDead(letter, MaxRetriesExceeded)])
      else if retryAfter.Some? then
        Outcome(Retried(tried.(deliverAt := CheckedAdd(now, retryAfter.value))), [Marked(tried, Pending)])
      else
        Outcome(Requeued(tried), [Marked(tried, Pending)])
    case Dead(reason) =>
      var letter := Letter(workerTopic, after);
      Outcome(DeadLettered(letter), [MarkedDead(after, reason), MarkedDead(letter, reason)])
  }

  /**
   The specification of `process_msg` for a message received as `m`. On a system
   topic the run ends with the pipeline: no status, no retry.
   */
  function Run(workerTopic: string, m: EMessage, after: EMessage, ack: Ack, now: Time): Outcome {
    if IsSystemTopic(workerTopic) then Outcome(Finished, [])
    else
      var o := Settled(workerTopic, after, ack, now);
      o.(syncs := [Marked(m, Processing)] + o.syncs)
  }

  /** The final status a disposition calls for. */
  function FinalStatus(d: Disposition): WalStatus {
    match d
    case Finished => Complete
    case Requeued(_) => Pending
    case Retried(_) => Pending
    case DeadLettered(_) => Failed
  }

  /** Every business run reports Processing first and ends on the status of where it left the message. */
  lemma StatusesMatchDisposition(workerTopic: string, m: EMessage, after: EMessage, ack: Ack, now: Time)
    requires !IsSystemTopic(workerTopic)
    requires after.id == m.id
    ensures
      var o := Run(workerTopic, m, after, ack, now);
      && |o.syncs| >= 2
      && o.syncs[0] == Sync(m.id, m.topic, Processing, 0, None)
      && o.syncs[|o.syncs| - 1].status == FinalStatus(o.disposition)
      && forall i :: 0 <= i < |o.syncs| ==> o.syncs[i].messageId == m.id
  {
  }

  // ---- What each answer leads to ---------------------------------------------

  /** The message with one more failed attempt behind it. */
  function OneMoreAttempt(m: EMessage): EMessage {
    m.(attempts := m.attempts + 1)
  }

  /** The dead letter is the message on the worker's dead-letter topic, without its delivery stamp. */
  predicate IsLetter(letter: EMessage, m: EMessage, workerTopic: string) {
    && letter.topic == "dead_letter." + workerTopic && letter.toWorker == None
    && letter.(topic := m.topic, toWorker := m.toWorker) == m
  }

  /**
   A negative answer ends a message's tries exactly if the limit is reached; below it
   the message goes on with one more attempt, after the delay if one was given.
   */
  lemma NoAckRetriesBelowTheLimit(workerTopic: string, m: EMessage, after: EMessage, delay: Option<nat>, limit: nat, now: Time)
    requires !IsSystemTopic(workerTopic)
    ensures
      var o := Run(workerTopic, m, after, NoAck(delay, limit), now);
      && (o.disposition.DeadLettered? <==> after.attempts + 1 >= limit)
      && (o.disposition.DeadLettered? ==>
            && IsLetter(o.disposition.letter, OneMoreAttempt(after), workerTopic)
            && o.syncs[|o.syncs| - 1].error == Some(MaxRetriesExceeded))
      && (o.disposition.Retried? <==> after.attempts + 1 < limit && delay.Some?)
      && (o.disposition.Retried? ==>
            && o.disposition.copy.(deliverAt := after.deliverAt) == OneMoreAttempt(after)
            && o.disposition.copy.deliverAt == if now + delay.value < TIME_LIMIT then Some(now + delay.value) else None)
      && (o.disposition.Requeued? <==> after.attempts + 1 < limit && delay.None?)
      && (o.disposition.Requeued? ==> o.disposition.copy == OneMoreAttempt(after))
  {
  }

  /** An answer that gives the message up dead-letters it as it is, for the reason given. */
  lemma DeadIsDeadLettered(workerTopic: string, m: EMessage, after: EMessage, reason: DeadReason, now: Time)
    requires !IsSystemTopic(workerTopic)
    ensures
      var o := Run(workerTopic, m, after, Dead(reason), now);
      && o.disposition.DeadLettered? && IsLetter(o.disposition.letter, after, workerTopic)
      && o.syncs[|o.syncs| - 1].error == Some(reason) && o.syncs[|o.syncs| - 1].attempts == after.attempts
  {
  }

  /** An acknowledgement finishes a message unless it is to be repeated; then it counts one more run. */
  lemma AckFinishesOrCounts(workerTopic: string, m: EMessage, after: EMessage, now: Time)
    requires !IsSystemTopic(workerTopic)
    ensures
      var o := Run(workerTopic, m, after, Ack, now);
      && (o.disposition.Finished? <==> (after.deliveryMode.Repeated? ==> after.deliveryMode.times == after.consumedCount + 1))
      && (!o.disposition.Finished? ==>
            o.disposition.Requeued? && o.disposition.copy == after.(consumedCount := after.consumedCount + 1))
      && var last := o.syncs[|o.syncs| - 1]; last.error == None && (o.disposition.Finished? ==> last.attempts == after.attempts)
  {
  }

  /**
   The message as the next run receives it after `k` runs that all failed under one
   limit, or None once it has been dead-lettered. The scheduler clears the time.
   */
  function AfterNoAcks(workerTopic: string, m: EMessage, limit: nat, delays: nat -> Option<nat>, clock: nat -> Time, k: nat)
    : Option<EMessage>
  {
    if k == 0 then Some(m)
    else match AfterNoAcks(workerTopic, m, limit, delays, clock, k - 1)
      case None => None
      case Some(live) =>
        match Run(workerTopic, live, live, NoAck(delays(k), limit), clock(k)).disposition
        case Requeued(copy) => Some(copy)
        case Retried(copy) => Some(copy.(deliverAt := None))
        case _ => None
  }

  /** Whatever the delays, failing under a limit is tried again exactly until the attempts reach it. */
  lemma {:induction false} RetriesEndAtTheLimit(
      workerTopic: string, m: EMessage, limit: nat, delays: nat -> Option<nat>, clock: nat -> Time, k: nat)
    requires !IsSystemTopic(workerTopic)
    ensures
      var live := AfterNoAcks(workerTopic, m, limit, delays, clock, k);
      && (live.Some? <==> k == 0 || m.attempts + k < limit)
      && (live.Some? ==> live.value.(deliverAt := m.deliverAt) == m.(attempts := m.attempts + k))
  {
    if k > 0 {
      RetriesEndAtTheLimit(workerTopic, m, limit, delays, clock, k - 1);
      var live := AfterNoAcks(workerTopic, m, limit, delays, clock, k - 1);
      if live.Some? {
        NoAckRetriesBelowTheLimit(workerTopic, live.value, live.value, delays(k), limit, clock(k));
      }
    }
  }

  /** A worker accepts a message that is untargeted or carries its own name. */
  predicate IsMisrouted(name: string, m: EMessage) {
    m.toWorker.Some? && m.toWorker.value != name
  }

  /** The message after `k` runs that all end in Ack, or None once it has finished. */
  function AfterAcks(workerTopic: string, m: EMessage, k: nat): Option<EMessage> {
    if k == 0 then Some(m)
    else match AfterAcks(workerTopic, m, k - 1)
      case None => None
      case Some(live) =>
        match Run(workerTopic, live, live, Ack, 0).disposition
        case Requeued(copy) => Some(copy)
        case _ => None
  }

  /**
   A repeated message that still owes runs is finished by exactly that many
   acknowledgements; one that owes none is requeued by every one of them.
   */
  lemma {:induction false} RepeatedOwesItsRuns(workerTopic: string, m: EMessage, k: nat)
    requires !IsSystemTopic(workerTopic)
    requires m.deliveryMode.Repeated?
    ensures AfterAcks(workerTopic, m, k) ==
            if m.deliveryMode.times <= m.consumedCount || k < m.deliveryMode.times - m.consumedCount
            then Some(m.(consumedCount := m.consumedCount + k)) else None
  {
    if k > 0 {
      RepeatedOwesItsRuns(workerTopic, m, k - 1);
    }
  }

  // ---- The imperative run --------------------------------------------------

  /**
   What a worker talks to during one run. Every fallible call of the run is
   awaited with `?`, so the first failure ends it: `budget` calls succeed before
   one fails.
   */
  class Outside {
    var budget: nat
    var syncs: seq<Sync>
    var toOwnQueue: seq<EMessage>
    var toRouter: seq<EMessage>

    constructor (budget: nat)
      ensures this.budget == budget && syncs == [] && toOwnQueue == [] && toRouter == []
    {
      this.budget := budget;
      syncs, toOwnQueue, toRouter := [], [], [];
    }

    method Report(s: Sync) returns (ok: bool)
      modifies this`budget, this`syncs
      ensures ok == (old(budget) > 0)
      ensures budget == (if ok then old(budget) - 1 else 0)
      ensures syncs == old(syncs) + (if ok then [s] else [])
    {
      ok := budget > 0;
      if ok {
        budget := budget - 1;
        syncs := syncs + [s];
      }
    }

    method Produce(m: EMessage) returns (ok: bool)
      modifies this`budget, this`toOwnQueue
      ensures ok == (old(budget) > 0)
      ensures budget == (if ok then old(budget) - 1 else 0)
      ensures toOwnQueue == old(toOwnQueue) + (if ok then [m] else [])
    {
      ok := budget > 0;
      if ok {
        budget := budget - 1;
        toOwnQueue := toOwnQueue + [m];
      }
    }

    method Route(m: EMessage) returns (ok: bool)
      modifies this`budget, this`toRouter
      ensures ok == (old(budget) > 0)
      ensures budget == (if ok then old(budget) - 1 else 0)
      ensures toRouter == old(toRouter) + (if ok then [m] else [])
    {
      ok := budget > 0;
      if ok {
        budget := budget - 1;
        toRouter := toRouter + [m];
      }
    }
  }

  function OwnQueueCopies(d: Disposition): seq<EMessage> {
    if d.Requeued? then [d.copy] else []
  }

  function RouterCopies(d: Disposition): seq<EMessage> {
    match d
    case Retried(copy) => [copy]
    case DeadLettered(letter) => [letter]
    case _ => []
  }

  /** Fallible calls a run makes: its status updates, then at most one send. */
  function Calls(o: Outcome): nat {
    |o.syncs| + |OwnQueueCopies(o.disposition)| + |RouterCopies(o.disposition)|
  }

  /** The outside world after a run with outcome `o`, given how it looked before. */
  ghost predicate RanTo(o: Outcome, ok: bool, budget: nat, syncs: seq<Sync>, syncs': seq<Sync>,
                        own: seq<EMessage>, own': seq<EMessage>, routed: seq<EMessage>, routed': seq<EMessage>)
  {
    && ok == (budget >= Calls(o))
    && syncs' == syncs + (if budget <= |o.syncs| then o.syncs[..budget] else o.syncs)
    && own' == own + (if ok then OwnQueueCopies(o.disposition) else [])
    && routed' == routed + (if ok then RouterCopies(o.disposition) else [])
  }

  /** What a run that went through has sent on, by the handler's answer: to the own queue and to the router. */
  ghost predicate SentOn(topic: string, after: EMessage, ack: Ack, now: Time, own: seq<EMessage>, own': seq<EMessage>,
                         routed: seq<EMessage>, routed': seq<EMessage>)
  {
    match ack
    case Ack =>
      var finished := after.deliveryMode.Repeated? ==> after.deliveryMode.times == after.consumedCount + 1;
      own' == own + (if finished then [] else [after.(consumedCount := after.consumedCount + 1)]) && routed' == routed
    case NoAck(delay, limit) =>
      if after.attempts + 1 >= limit then
        own' == own && exists letter :: IsLetter(letter, OneMoreAttempt(after), topic) && routed' == routed + [letter]
      else if delay.Some? then
        var at := if now + delay.value < TIME_LIMIT then Some(now + delay.value) else None;
        own' == own && routed' == routed + [OneMoreAttempt(after).(deliverAt := at)]
      else own' == own + [OneMoreAttempt(after)] && routed' == routed
    case Dead(_) =>
      own' == own && exists letter :: IsLetter(letter, after, topic) && routed' == routed + [letter]
  }

  lemma ReportedFirst(p: Sync, o: Outcome, ok: bool, budget: nat, syncs: seq<Sync>, syncs': seq<Sync>,
                      own: seq<EMessage>, own': seq<EMessage>, routed: seq<EMessage>, routed': seq<EMessage>)
    requires budget > 0 && RanTo(o, ok, budget - 1, syncs + [p], syncs', own, own', routed, routed')
    ensures RanTo(o.(syncs := [p] + o.syncs), ok, budget, syncs, syncs', own, own', routed, routed')
  {
  }

  class Worker {
    const topic: string
    const name: string

    constructor (topic: string, name: string)
      ensures this.topic == topic && this.name == name
    {
      this.topic := topic;
      this.name := name;
    }

    /**
     `process_msg`: a failed call ends the run with an error, having reported a
     prefix of the statuses and sent nothing on. So does a clock that has gone back
     while the handler ran: the run then ends on Processing, whatever the answer.
     */
    method ProcessMsg(m: EMessage, after: EMessage, ack: Ack, now: Time, clockBack: bool, out: Outside) returns (ok: bool)
      modifies out
      ensures !clockBack || IsSystemTopic(topic) ==>
                RanTo(Run(topic, m, after, ack, now), ok, old(out.budget), old(out.syncs), out.syncs,
                      old(out.toOwnQueue), out.toOwnQueue, old(out.toRouter), out.toRouter)
      ensures clockBack && !IsSystemTopic(topic) ==>
                && !ok && out.syncs == old(out.syncs) + (if old(out.budget) > 0 then [Marked(m, Processing)] else [])
                && out.toOwnQueue == old(out.toOwnQueue) && out.toRouter == old(out.toRouter)
      ensures ok && !IsSystemTopic(topic) ==>
                SentOn(topic, after, ack, now, old(out.toOwnQueue), out.toOwnQueue, old(out.toRouter), out.toRouter)
      ensures old(out.budget) >= 4 && !clockBack ==> ok
      ensures IsSystemTopic(topic) ==> ok && out.syncs == old(out.syncs)
      ensures !ok || IsSystemTopic(topic) ==> out.toOwnQueue == old(out.toOwnQueue) && out.toRouter == old(out.toRouter)
    {
      if IsSystemTopic(topic) {
        return true;
      }
      ok := out.Report(Marked(m, Processing));
      if !ok { return; }
      if clockBack {
        return false;
      }
      ok := Settle(after, ack, now, out);
      ReportedFirst(Marked(m, Processing), Settled(topic, after, ack, now), ok, old(out.budget), old(out.syncs), out.syncs,
                    old(out.toOwnQueue), out.toOwnQueue, old(out.toRouter), out.toRouter);
    }

    method Settle(after: EMessage, ack: Ack, now: Time, out: Outside) returns (ok: bool)
      modifies out
      ensures RanTo(Settled(topic, after, ack, now), ok, old(out.budget), old(out.syncs), out.syncs,
                    old(out.toOwnQueue), out.toOwnQueue, old(out.toRouter), out.toRouter)
      ensures old(out.budget) >= 3 ==> ok
      ensures ok ==> SentOn(topic, after, ack, now, old(out.toOwnQueue), out.toOwnQueue, old(out.toRouter), out.toRouter)
    {
      var msg := after;
      match ack {
        case Ack =>
          if msg.deliveryMode.Repeated? {
            msg := msg.(consumedCount := msg.consumedCount + 1);
            if msg.deliveryMode.times == msg.consumedCount {
              ok := out.Report(Marked(msg, Complete));
              return;
            }
            ok := out.Report(Marked(msg, Pending));
            if !ok { return; }
            ok := RequeueMessage(msg, out);
            return;
          }
          ok := out.Report(Marked(msg, Complete));
        case NoAck(retryAfter, maxRetries) =>
          ok := Retry(msg, retryAfter, maxRetries, now, out);
        case Dead(reason) =>
          ok := out.Report(MarkedDead(msg, reason));
          if !ok { return; }
          ok := SendToDeadLetter(msg, reason, out);
      }
    }

    method Retry(after: EMessage, retryAfter: Option<nat>, maxRetries: nat, now: Time, out: Outside) returns (ok: bool)
      modifies out
      ensures RanTo(Settled(topic, after, NoAck(retryAfter, maxRetries), now), ok,
                    old(out.budget), old(out.syncs), out.syncs,
                    old(out.toOwnQueue), out.toOwnQueue, old(out.toRouter), out.toRouter)
      ensures old(out.budget) >= 3 ==> ok
      ensures ok ==> SentOn(topic, after, NoAck(retryAfter, maxRetries), now,
                            old(out.toOwnQueue), out.toOwnQueue, old(out.toRouter), out.toRouter)
    {
      var msg := after.(attempts := after.attempts + 1);
      ok := out.Report(Marked(msg, Pending));
      if !ok { return; }
      if msg.attempts >= maxRetries {
        ok := SendToDeadLetter(msg, MaxRetriesExceeded, out);
      } else if retryAfter.Some? {
        msg := msg.(deliverAt := CheckedAdd(now, retryAfter.value));
        ok := out.Route(msg);
      } else {
        ok := out.Produce(msg);
      }
    }

    method RequeueMessage(m: EMessage, out: Outside) returns (ok: bool)
      modifies out
      ensures RanTo(Outcome(Requeued(m), [Marked(m, Pending)]), ok, old(out.budget), old(out.syncs), out.syncs,
                    old(out.toOwnQueue), out.toOwnQueue, old(out.toRouter), out.toRouter)
    {
      ok := out.Report(Marked(m, Pending));
      if !ok { return; }
      ok := out.Produce(m);
    }

    /** The letter changes topic and loses its delivery stamp before it is reported and routed. */
    method SendToDeadLetter(m: EMessage, reason: DeadReason, out: Outside) returns (ok: bool)
      modifies out
      ensures RanTo(Outcome(DeadLettered(Letter(topic, m)), [MarkedDead(Letter(topic, m), reason)]), ok,
                    old(out.budget), old(out.syncs), out.syncs,
                    old(out.toOwnQueue), out.toOwnQueue, old(out.toRouter), out.toRouter)
      ensures ok ==> out.toOwnQueue == old(out.toOwnQueue) &&
                     exists letter :: IsLetter(letter, m, topic) && out.toRouter == old(out.toRouter) + [letter]
    {
      var msg := m;
      msg := msg.(topic := DeadLetterTopic(topic));
      msg := msg.(toWorker := None);
      ok := out.Report(MarkedDead(msg, reason));
      if !ok { return; }
      ok := out.Route(msg);
      assert IsLetter(msg, m, topic);
    }

    /** A misrouted message goes back to the topic queue unless the cap stops it; a failed send is ignored. */
    method RouteTargeted(m: EMessage, out: Outside)
      modifies out
      ensures out.syncs == old(out.syncs) && out.toRouter == old(out.toRouter)
      ensures out.toOwnQueue == old(out.toOwnQueue) +
                (if Hop(m).Some? && old(out.budget) > 0 then [Hop(m).value] else [])
    {
      if m.attempts >= MAX_TARGETED_HOPS {
        return;
      }
      var msg := m.(attempts := m.attempts + 1);
      var _ := out.Produce(msg);
    }
  }
}

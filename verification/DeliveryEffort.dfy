/**
 The work one message can cause on its topic: a measure that every step on the
 message lowers, except handing an undeliverable claim back to its queue.
 */
module DeliveryEffort {
  import opened Messages
  import opened Delivery
  import opened DeliveryInvariant
  import opened DeliverySteps
  import opened DeliveryRuns

  /** How far a place is from the end of a pass through the system. */
  function Rank(s: System, p: Place): nat {
    match p
    case InMain => 9
    case InBatch => 8
    case InRouterNack => 8
    case InDelays(_) => 7
    case InReady => 6
    case InQueue(_) => 5
    case AtDispatcher(d) => if d in s.dispatchers && s.dispatchers[d].phase.DRelaying? then 6 else 4
    case InInbox(_) => 3
    case AtWorker(w) => if w in s.workers && s.workers[w].phase.WSending? then 6 else 2
    case _ => 0
  }

  /** Passes a message may still start: owed repeats, and relays or retries below the larger cap. */
  function Passes(m: EMessage, limit: nat): nat {
    (if m.deliveryMode.Repeated? then Max(m.deliveryMode.times - m.consumedCount, 0) else 0) +
    Max(Max(MAX_TARGETED_HOPS, limit) - m.attempts, 0)
  }

  function Effort(s: System, p: Place, m: EMessage, limit: nat): nat {
    16 * Passes(m, limit) + Rank(s, p)
  }

  ghost predicate IsAt(s: System, id: string, p: Place, m: EMessage) {
    m.id == id && exists i :: 0 <= i < |Held(s.holds, p)| && Held(s.holds, p)[i] == m
  }

  /** The retry limits of a step stay below `limit`. */
  predicate WithinLimit(step: Step, limit: nat) {
    step.Work? && step.b.Handle? && step.b.ack.NoAck? ==> step.b.ack.maxRetries <= limit
  }

  ghost predicate Touches(s: System, step: Step, id: string)
    requires Enabled(s, step)
  {
    var v := MoveOf(s, step);
    v.take.Some? && v.put.Some? && v.put.value.msg.id == id
  }

  /** An undeliverable claim goes back. */
  ghost predicate GivesBack(s: System, step: Step)
    requires Enabled(s, step)
  {
    || (step.Disp? && step.a.NackClaim?)
    || (step.Loop? && step.c.NackMain?)
    || (step.Loop? && step.c.RouteMain? && MoveOf(s, step).put.Some? && MoveOf(s, step).put.value.place.InRouterNack?)
  }

  ghost predicate DeadLetters(s: System, step: Step)
    requires Enabled(s, step)
  {
    MoveOf(s, step).closing != []
  }

  // ---- One step ------------------------------------------------------------

  /** What a lawful move does to the effort of the message it moves. */
  ghost predicate Lowers(s: System, step: Step, limit: nat)
    requires Enabled(s, step)
  {
    var v := MoveOf(s, step);
    var s' := Next(s, step);
    v.take.Some? && v.put.Some? && Head(s, v.take.value).Some? ==>
      var m := Head(s, v.take.value).value;
      var e, e' := Effort(s, v.take.value, m, limit), Effort(s', v.put.value.place, v.put.value.msg, limit);
      if GivesBack(s, step) then e' <= e + 1 else e' < e
  }

  /** A claim that moves either starts a pass it could afford or goes further down. */
  lemma ClaimLowers(s: System, d: string, m: EMessage, limit: nat)
    requires d in s.dispatchers && m.id in s.ledgers && ClaimMove(s, d, m).put.Some?
    ensures
      var t := ClaimMove(s, d, m).put.value;
      || Passes(t.msg, limit) < Passes(m, limit)
      || (Passes(t.msg, limit) == Passes(m, limit) && (t.place.InInbox? || t.place.Dropped?))
  {
  }

  lemma DispatchClaimLowers(s: System, d: string, limit: nat)
    requires Enabled(s, Disp(d, DispatchClaim))
    ensures Lowers(s, Disp(d, DispatchClaim), limit)
  {
    if Head(s, AtDispatcher(d)).Some? {
      var m := Head(s, AtDispatcher(d)).value;
      if ClaimMove(s, d, m).put.Some? {
        ClaimLowers(s, d, m, limit);
      }
    }
  }

  lemma DispatcherLowers(s: System, d: string, a: DispatcherAct, limit: nat)
    requires Enabled(s, Disp(d, a))
    ensures Lowers(s, Disp(d, a), limit)
  {
    if a.DispatchClaim? {
      DispatchClaimLowers(s, d, limit);
    }
  }

  lemma RouteLowers(s: System, m: EMessage, choice: Option<string>, ephemeral: string, limit: nat)
    requires m.id in s.ledgers && (choice.Some? ==> choice.value in s.workers)
    ensures
      var t := RouteMove(s, m, choice, ephemeral).put.value;
      || (Passes(t.msg, limit) < Passes(m, limit) && t.place.InQueue?)
      || (t.msg == m && (Final(t.place) || t.place.InRouterNack? || t.place.InQueue? || t.place == AtWorker(ephemeral)))
  {
  }

  lemma RouteMainLowers(s: System, a: LoopAct, limit: nat)
    requires a.RouteMain? && Enabled(s, Loop(a))
    ensures Lowers(s, Loop(a), limit)
  {
    if Head(s, InBatch).Some? {
      RouteLowers(s, Head(s, InBatch).value, a.choice, a.ephemeral, limit);
    }
  }

  lemma LoopLowers(s: System, a: LoopAct, limit: nat)
    requires Enabled(s, Loop(a))
    ensures Lowers(s, Loop(a), limit)
  {
    if a.RouteMain? {
      RouteMainLowers(s, a, limit);
    }
  }

  /** A run or a misrouting either ends the message's stay or starts a pass it could afford. */
  lemma HandleLowers(s: System, w: string, m: EMessage, a: WorkerAct, limit: nat)
    requires w in s.workers && a.Handle? && m.id in s.ledgers && HandleMove(s, w, m, a).closing == []
    requires a.ack.NoAck? ==> a.ack.maxRetries <= limit
    requires m.deliveryMode.Repeated? ==> m.consumedCount < m.deliveryMode.times
    ensures
      var t := HandleMove(s, w, m, a).put.value;
      (Final(t.place) && t.msg == m) || Passes(t.msg, limit) < Passes(m, limit)
  {
  }

  /** A pass less outweighs any place. */
  lemma FewerPasses(s: System, p: Place, m: EMessage, s': System, p': Place, m': EMessage, limit: nat)
    requires Passes(m', limit) < Passes(m, limit)
    ensures Effort(s', p', m', limit) < Effort(s, p, m, limit)
  {
  }

  lemma HandleStepLowers(s: System, w: string, a: WorkerAct, limit: nat)
    requires a.Handle? && Enabled(s, Work(w, a)) && Head(s, AtWorker(w)).Some?
    requires
      var m, v := Head(s, AtWorker(w)).value, MoveOf(s, Work(w, a));
      v.take == Some(AtWorker(w)) && v.put.Some? &&
      ((Final(v.put.value.place) && v.put.value.msg == m) || Passes(v.put.value.msg, limit) < Passes(m, limit))
    ensures Lowers(s, Work(w, a), limit)
  {
    var m, v := Head(s, AtWorker(w)).value, MoveOf(s, Work(w, a));
    if Passes(v.put.value.msg, limit) < Passes(m, limit) {
      FewerPasses(s, AtWorker(w), m, Next(s, Work(w, a)), v.put.value.place, v.put.value.msg, limit);
    }
  }

  lemma WorkerLowers(s: System, w: string, a: WorkerAct, limit: nat)
    requires Enabled(s, Work(w, a)) && WithinLimit(Work(w, a), limit) && !DeadLetters(s, Work(w, a))
    requires a.Handle? && Head(s, AtWorker(w)).Some? ==>
               var m := Head(s, AtWorker(w)).value;
               m.deliveryMode.Repeated? ==> m.consumedCount < m.deliveryMode.times
    ensures Lowers(s, Work(w, a), limit)
  {
    if a.Handle? {
      if Head(s, AtWorker(w)).Some? {
        HandleLowers(s, w, Head(s, AtWorker(w)).value, a, limit);
        HandleStepLowers(s, w, a, limit);
      }
    } else {
      OtherWorkerLowers(s, w, a, limit);
    }
  }

  lemma OtherWorkerLowers(s: System, w: string, a: WorkerAct, limit: nat)
    requires Enabled(s, Work(w, a)) && !a.Handle?
    ensures Lowers(s, Work(w, a), limit)
  {
  }

  // ---- Messages a step does not touch --------------------------------------

  lemma UntouchedStays(s: System, step: Step, id: string, p: Place, m: EMessage)
    requires Inv(s) && Enabled(s, step) && !step.Env? && IsAt(s, id, p, m) && !Touches(s, step, id)
    ensures IsAt(Next(s, step), id, p, m)
  {
    var v := MoveOf(s, step);
    MoveOfStep(s, step);
    MoveShifts(s, v);
    ShiftKeepsOthers(s, v, Next(s, step), id, p, m);
  }

  lemma ShiftKeepsOthers(s: System, v: Move, s': System, id: string, p: Place, m: EMessage)
    requires IsAt(s, id, p, m) && ShiftedAt(s.holds, s'.holds, v, p)
    requires v == Still() ||
             (v.take.Some? && v.put.Some? && Held(s.holds, v.take.value) != [] &&
              Held(s.holds, v.take.value)[0].id == v.put.value.msg.id && v.put.value.msg.id != id)
    ensures IsAt(s', id, p, m)
  {
    var i :| 0 <= i < |Held(s.holds, p)| && Held(s.holds, p)[i] == m;
    var i' := if v.take == Some(p) then i - 1 else i;
    assert Held(s'.holds, p)[i'] == m;
  }

  lemma ArrivalShape(s: System, e: EnvAct, p: Place)
    requires Inv(s) && EnvEnabled(s, e) && (e.Submit? || e.SubmitToMain?)
    ensures
      var t := EnvMove(e).put.value;
      Held(Next(s, Env(e)).holds, p) == if p == t.place then Held(s.holds, p) + [t.msg] else Held(s.holds, p)
  {
  }

  lemma ArrivalKeepsOthers(s: System, e: EnvAct, id: string, p: Place, m: EMessage)
    requires Inv(s) && EnvEnabled(s, e) && IsAt(s, id, p, m)
    ensures IsAt(Next(s, Env(e)), id, p, m)
  {
    if e.Submit? || e.SubmitToMain? {
      ArrivalShape(s, e, p);
      AtAfterPut(s, Next(s, Env(e)), EnvMove(e).put.value, id, p, m);
    }
  }

  lemma AtAfterPut(s: System, s': System, t: Token, id: string, p: Place, m: EMessage)
    requires IsAt(s, id, p, m)
    requires Held(s'.holds, p) == if p == t.place then Held(s.holds, p) + [t.msg] else Held(s.holds, p)
    ensures IsAt(s', id, p, m)
  {
  }

  /** A dispatcher's phase changes by its own steps only. */
  lemma DispatcherPhaseStays(s: System, step: Step, d: string)
    requires Enabled(s, step) && !(step.Disp? && step.d == d) && d in s.dispatchers
    ensures d in Next(s, step).dispatchers && Next(s, step).dispatchers[d] == s.dispatchers[d]
  {
  }

  /** With a message in hand that it does not move on, a dispatcher neither starts nor ends a relay. */
  lemma HoldingDispatcher(s: System, d: string, a: DispatcherAct, m: EMessage)
    requires d in s.dispatchers && DispatcherEnabled(s, d, a) && DispatcherHand(s, d) && Head(s, AtDispatcher(d)) == Some(m)
    requires
      var v := DispatcherMove(s, d, a);
      v.take.Some? && v.put.Some? ==> v.put.value.msg.id != m.id
    ensures DispatcherControl(s, d, a).phase.DRelaying? == s.dispatchers[d].phase.DRelaying?
  {
  }

  lemma DispatcherRankStays(s: System, step: Step, d: string, m: EMessage)
    requires Enabled(s, step) && DispatcherHand(s, d) && Head(s, AtDispatcher(d)) == Some(m) && !Touches(s, step, m.id)
    ensures Rank(Next(s, step), AtDispatcher(d)) == Rank(s, AtDispatcher(d))
  {
    if step.Disp? && step.d == d {
      HoldingDispatcher(s, d, step.a, m);
    } else {
      DispatcherPhaseStays(s, step, d);
    }
  }

  /** A worker's phase changes by its own steps only, a create or a one-shot start aside. */
  lemma WorkerPhaseStays(s: System, step: Step, w: string)
    requires Enabled(s, step) && !(step.Work? && step.w == w) && w in s.workers
    ensures w in Next(s, step).workers && Next(s, step).workers[w].phase == s.workers[w].phase
  {
  }

  /** A worker with a message in hand does nothing but move it on. */
  lemma BusyWorkerMovesItsMessage(s: System, w: string, a: WorkerAct, m: EMessage)
    requires w in s.workers && WorkerEnabled(s, w, a) && WorkerHand(s, w) && Head(s, AtWorker(w)) == Some(m)
    ensures
      var v := WorkerMove(s, w, a);
      v.take.Some? && v.put.Some? && v.put.value.msg.id == m.id
  {
  }

  lemma WorkerRankStays(s: System, step: Step, w: string, m: EMessage)
    requires Enabled(s, step) && WorkerHand(s, w) && Head(s, AtWorker(w)) == Some(m) && !Touches(s, step, m.id)
    ensures Rank(Next(s, step), AtWorker(w)) == Rank(s, AtWorker(w))
  {
    assert !(step.Work? && step.w == w) by {
      if step.Work? && step.w == w {
        BusyWorkerMovesItsMessage(s, w, step.b, m);
      }
    }
    WorkerPhaseStays(s, step, w);
  }

  lemma UntouchedRank(s: System, step: Step, id: string, p: Place, m: EMessage)
    requires Agents(s) && Enabled(s, step) && m.id == id && !Touches(s, step, id)
    requires p.AtDispatcher? || p.AtWorker? ==> Head(s, p) == Some(m)
    ensures Rank(Next(s, step), p) == Rank(s, p)
  {
    if p.AtDispatcher? {
      assert DispatcherHand(s, p.d);
      DispatcherRankStays(s, step, p.d, m);
    } else if p.AtWorker? {
      assert WorkerHand(s, p.w);
      WorkerRankStays(s, step, p.w, m);
    }
  }

  // ---- One step, seen from one message -------------------------------------

  /** The touched message is the head that the move takes. */
  lemma TouchedIsHead(s: System, v: Move, id: string, p: Place, m: EMessage)
    requires OneCopy(s.holds) && IsAt(s, id, p, m) && LawfulMove(s, v, s.workers.Keys) && v.put.value.msg.id == id
    requires Head(s, v.take.value).Some?
    ensures p == v.take.value && Head(s, p) == Some(m)
  {
  }

  lemma TouchedArrives(s: System, v: Move, s': System)
    requires v.take.Some? && v.put.Some? && ShiftedAt(s.holds, s'.holds, v, v.put.value.place) && v != Still()
    ensures IsAt(s', v.put.value.msg.id, v.put.value.place, v.put.value.msg)
  {
    var q := Held(s'.holds, v.put.value.place);
    assert q[|q| - 1] == v.put.value.msg;
  }

  lemma StepLowers(s: System, step: Step, limit: nat)
    requires Inv(s) && Enabled(s, step) && WithinLimit(step, limit) && !DeadLetters(s, step) && !step.Env?
    requires step.Work? && Head(s, AtWorker(step.w)).Some? ==>
               Owed(s.ledgers[Head(s, AtWorker(step.w)).value.id].first) >= 1
    ensures Lowers(s, step, limit)
  {
    match step {
      case Disp(d, a) => DispatcherLowers(s, d, a, limit);
      case Work(w, a) =>
        HeadsReady(s);
        assert HeadReady(s, AtWorker(w));
        WorkerLowers(s, w, a, limit);
      case Loop(a) => LoopLowers(s, a, limit);
    }
  }

  /** A move that closes no ledger keeps the first entry of the one it writes. */
  ghost predicate KeepsFirst(s: System, v: Move) {
    v.take.Some? && v.put.Some? && v.closing == [] && Head(s, v.take.value).Some? ==>
      var id := Head(s, v.take.value).value.id;
      id in v.books && v.books[id].first == s.ledgers[id].first
  }

  lemma DispatcherKeepsFirst(s: System, d: string, a: DispatcherAct)
    requires d in s.dispatchers
    ensures KeepsFirst(s, DispatcherMove(s, d, a))
  {
  }

  lemma HandleKeepsFirst(s: System, w: string, m: EMessage, a: WorkerAct)
    requires w in s.workers && a.Handle? && Head(s, AtWorker(w)) == Some(m)
    ensures KeepsFirst(s, HandleMove(s, w, m, a))
  {
  }

  lemma WorkerKeepsFirst(s: System, w: string, a: WorkerAct)
    requires w in s.workers && WorkerEnabled(s, w, a)
    ensures KeepsFirst(s, WorkerMove(s, w, a))
  {
    if a.Handle? && Head(s, AtWorker(w)).Some? {
      HandleKeepsFirst(s, w, Head(s, AtWorker(w)).value, a);
    }
  }

  lemma LoopKeepsFirst(s: System, a: LoopAct)
    requires LoopEnabled(s, a)
    ensures KeepsFirst(s, LoopMove(s, a))
  {
  }

  lemma StepKeepsFirst(s: System, step: Step)
    requires Enabled(s, step) && !step.Env?
    ensures KeepsFirst(s, MoveOf(s, step))
  {
    match step {
      case Disp(d, a) => DispatcherKeepsFirst(s, d, a);
      case Work(w, a) => WorkerKeepsFirst(s, w, a);
      case Loop(a) => LoopKeepsFirst(s, a);
    }
  }

  lemma LawfulFirst(s: System, v: Move, id: string)
    requires StillOrLawful(s, v) && id in s.ledgers && KeepsFirst(s, v)
    requires v.take.Some? ==> Head(s, v.take.value).Some?
    requires v.put.Some? && v.put.value.msg.id == id ==> v.closing == []
    ensures id in Apply(s, v).ledgers && Apply(s, v).ledgers[id].first == s.ledgers[id].first
  {
  }

  /** The ledgers after a step are those its move leaves. */
  lemma LedgersOfMove(s: System, step: Step)
    requires Enabled(s, step)
    ensures Next(s, step).ledgers == Apply(s, MoveOf(s, step)).ledgers
  {
  }

  lemma ArrivalKeepsFirst(s: System, e: EnvAct, id: string)
    requires EnvEnabled(s, e) && id in s.ledgers
    ensures id in Apply(s, EnvMove(e)).ledgers && Apply(s, EnvMove(e)).ledgers[id] == s.ledgers[id]
  {
  }

  lemma FirstKept(s: System, step: Step, id: string)
    requires Inv(s) && Enabled(s, step) && id in s.ledgers
    requires Touches(s, step, id) ==> !DeadLetters(s, step)
    ensures id in Next(s, step).ledgers
    ensures Next(s, step).ledgers[id].first == s.ledgers[id].first
  {
    LedgersOfMove(s, step);
    if step.Env? {
      ArrivalKeepsFirst(s, step.e, id);
    } else {
      MoveOfStep(s, step);
      StepKeepsFirst(s, step);
      LawfulFirst(s, MoveOf(s, step), id);
    }
  }

  /** One step changes the effort of one message by at most what the step is. */
  ghost predicate Pays(s: System, step: Step, id: string, before: nat, after: nat)
    requires Enabled(s, step)
  {
    if !Touches(s, step, id) then after == before
    else if GivesBack(s, step) then after <= before + 1
    else after < before
  }

  lemma TouchedStep(s: System, step: Step, id: string, p: Place, m: EMessage, limit: nat) returns (p': Place, m': EMessage)
    requires Inv(s) && Enabled(s, step) && IsAt(s, id, p, m) && id in s.ledgers && Owed(s.ledgers[id].first) >= 1
    requires Touches(s, step, id) && WithinLimit(step, limit) && !DeadLetters(s, step)
    ensures IsAt(Next(s, step), id, p', m')
    ensures Pays(s, step, id, Effort(s, p, m, limit), Effort(Next(s, step), p', m', limit))
  {
    var v := MoveOf(s, step);
    MoveOfStep(s, step);
    TouchedIsHead(s, v, id, p, m);
    MoveShifts(s, v);
    TouchedArrives(s, v, Next(s, step));
    p', m' := v.put.value.place, v.put.value.msg;
    WorkerTakesOwnHand(s, step, p);
    StepLowers(s, step, limit);
  }

  /** What a worker takes from is its own hand, unless it receives. */
  lemma WorkerTakesOwnHand(s: System, step: Step, p: Place)
    requires Agents(s) && Enabled(s, step) && MoveOf(s, step).take == Some(p)
    ensures step.Work? && Head(s, AtWorker(step.w)).Some? ==> p == AtWorker(step.w)
  {
    if step.Work? {
      assert WorkerHand(s, step.w);
    }
  }

  lemma RankStays(s: System, step: Step, id: string, p: Place, m: EMessage)
    requires Inv(s) && Enabled(s, step) && IsAt(s, id, p, m) && !Touches(s, step, id)
    ensures Rank(Next(s, step), p) == Rank(s, p)
  {
    HeadsKnown(s);
    assert HeadKnown(s, p);
    HandIsHead(s, id, p, m);
    UntouchedRank(s, step, id, p, m);
  }

  lemma PlaceStays(s: System, step: Step, id: string, p: Place, m: EMessage)
    requires Inv(s) && Enabled(s, step) && IsAt(s, id, p, m) && !Touches(s, step, id)
    ensures IsAt(Next(s, step), id, p, m)
  {
    if step.Env? {
      ArrivalKeepsOthers(s, step.e, id, p, m);
    } else {
      UntouchedStays(s, step, id, p, m);
    }
  }

  lemma UntouchedStep(s: System, step: Step, id: string, p: Place, m: EMessage, limit: nat)
    requires Inv(s) && Enabled(s, step) && IsAt(s, id, p, m) && !Touches(s, step, id)
    ensures IsAt(Next(s, step), id, p, m)
    ensures Effort(Next(s, step), p, m, limit) == Effort(s, p, m, limit)
  {
    PlaceStays(s, step, id, p, m);
    RankStays(s, step, id, p, m);
  }

  lemma HandIsHead(s: System, id: string, p: Place, m: EMessage)
    requires HeadKnown(s, p) && IsAt(s, id, p, m)
    requires p.AtDispatcher? ==> DispatcherHand(s, p.d)
    requires p.AtWorker? ==> WorkerHand(s, p.w)
    ensures p.AtDispatcher? || p.AtWorker? ==> Head(s, p) == Some(m)
  {
  }

  // ---- A whole run ---------------------------------------------------------

  /** One if the step touches the message and does not give it back. */
  ghost function Spent(s: System, step: Step, id: string): nat {
    if Enabled(s, step) && Touches(s, step, id) && !GivesBack(s, step) then 1 else 0
  }

  /** One if the step gives the message back to its queue. */
  ghost function Back(s: System, step: Step, id: string): nat {
    if Enabled(s, step) && Touches(s, step, id) && GivesBack(s, step) then 1 else 0
  }

  /** The step neither dead-letters the message nor answers it with a larger retry limit. */
  ghost predicate Allowed(s: System, step: Step, id: string, limit: nat) {
    Enabled(s, step) && (Touches(s, step, id) ==> WithinLimit(step, limit) && !DeadLetters(s, step))
  }

  ghost predicate Owing(s: System, id: string) {
    id in s.ledgers && Owed(s.ledgers[id].first) >= 1
  }

  lemma RunStepEffort(states: seq<System>, steps: seq<Step>, k: nat, id: string, p: Place, m: EMessage, limit: nat)
    returns (p': Place, m': EMessage)
    requires IsRun(states, steps) && k < |steps| && IsAt(states[k], id, p, m) && Owing(states[k], id)
    requires Allowed(states[k], steps[k], id, limit)
    ensures IsAt(states[k + 1], id, p', m') && Owing(states[k + 1], id)
    ensures Spent(states[k], steps[k], id) + Effort(states[k + 1], p', m', limit)
            <= Effort(states[k], p, m, limit) + Back(states[k], steps[k], id)
  {
    RunInv(states, steps, k);
    assert StepAt(states, steps, k);
    FirstKept(states[k], steps[k], id);
    if Touches(states[k], steps[k], id) {
      p', m' := TouchedStep(states[k], steps[k], id, p, m, limit);
    } else {
      UntouchedStep(states[k], steps[k], id, p, m, limit);
      p', m' := p, m;
    }
  }

  /** Steps among the first `n` from `i` on that touch the message and do not give it back. */
  ghost function Touched(states: seq<System>, steps: seq<Step>, i: nat, n: nat, id: string): nat
    requires i + n <= |steps| < |states|
  {
    if n == 0 then 0 else Touched(states, steps, i, n - 1, id) + Spent(states[i + n - 1], steps[i + n - 1], id)
  }

  /** Steps among the first `n` from `i` on that give the message back to its queue. */
  ghost function GivenBack(states: seq<System>, steps: seq<Step>, i: nat, n: nat, id: string): nat
    requires i + n <= |steps| < |states|
  {
    if n == 0 then 0 else GivenBack(states, steps, i, n - 1, id) + Back(states[i + n - 1], steps[i + n - 1], id)
  }

  /** None of the first `n` steps from `i` on dead-letters the message or answers it with a larger retry limit. */
  ghost predicate Undisturbed(states: seq<System>, steps: seq<Step>, i: nat, n: nat, id: string, limit: nat)
    requires i + n <= |steps| < |states|
  {
    n == 0 ||
    (Undisturbed(states, steps, i, n - 1, id, limit) && Allowed(states[i + n - 1], steps[i + n - 1], id, limit))
  }

  lemma {:induction false} EffortPaysForEveryStep(
    states: seq<System>, steps: seq<Step>, i: nat, n: nat, id: string, p: Place, m: EMessage, limit: nat)
    returns (p': Place, m': EMessage)
    requires IsRun(states, steps) && i + n <= |steps| && IsAt(states[i], id, p, m) && Owing(states[i], id)
    requires Undisturbed(states, steps, i, n, id, limit)
    ensures IsAt(states[i + n], id, p', m') && Owing(states[i + n], id)
    ensures Touched(states, steps, i, n, id) + Effort(states[i + n], p', m', limit)
            <= Effort(states[i], p, m, limit) + GivenBack(states, steps, i, n, id)
    decreases n
  {
    if n == 0 {
      p', m' := p, m;
    } else {
      var q, r := EffortPaysForEveryStep(states, steps, i, n - 1, id, p, m, limit);
      p', m' := RunStepEffort(states, steps, i + n - 1, id, q, r, limit);
    }
  }

  /**
   From any point of any run, as long as no handler answers the message with a limit
   above `limit`, whatever others are answered, and it is not dead-lettered, the steps
   spent on it are at most sixteen per repeat it owes and per attempt left below the
   larger cap, plus a last pass, plus one for every time an undeliverable claim was
   handed back.
   */
  lemma WorkOnAMessageIsBounded(
    states: seq<System>, steps: seq<Step>, i: nat, n: nat, id: string, p: Place, m: EMessage, limit: nat)
    requires IsRun(states, steps) && i + n <= |steps| && IsAt(states[i], id, p, m) && Owing(states[i], id)
    requires Undisturbed(states, steps, i, n, id, limit)
    ensures Touched(states, steps, i, n, id) <= 16 * Passes(m, limit) + 9 + GivenBack(states, steps, i, n, id)
  {
    var p', m' := EffortPaysForEveryStep(states, steps, i, n, id, p, m, limit);
  }
}

/**
 What holds in every run of the delivery protocol: conservation, targeting,
 bounded runs and relays, and a bound on the work spent on one message.
 */
module DeliveryRuns {
  import opened Messages
  import opened Delivery
  import opened DeliveryInvariant
  import opened DeliverySteps
  import WP = WorkerProcess

  // ---- Arrivals and lifecycle ----------------------------------------------

  lemma ArrivalStep(s: System, e: EnvAct, to: Place)
    requires Inv(s) && EnvEnabled(s, e) && (e.Submit? || e.SubmitToMain?) && EnvMove(e) == Arrive(to, e.m)
    ensures Inv(Next(s, Env(e)))
  {
    var s' := Next(s, Env(e));
    var t := Token(to, e.m);
    OneBook(s.ledgers, e.m.id, Opened(e.m));
    NoBook(s.ledgers, s.closed);
    assert s'.holds == PutToken(s.holds, t);
    ArriveKeeps(s, to, e.m, s');
    ArrivalKeepsAgents(s, t, s');
  }

  lemma ArrivalKeepsAgents(s: System, t: Token, s': System)
    requires Inv(s) && t.msg.id !in s.ledgers && s'.holds == PutToken(s.holds, t)
    requires t.place.InQueue? || t.place.InMain? || t.place == InDelays(t.msg.id)
    requires s'.dispatchers == s.dispatchers && s'.workers == s.workers
    ensures Agents(s') && OwnSlots(s'.holds)
  {
    AbsentWithoutLedger(s, t.msg.id);
    SlotEmpty(s.holds, t.msg.id);
    PutShape(s.holds, t);
    PutKeepsAgents(s, t, s');
  }

  lemma PutKeepsAgents(s: System, t: Token, s': System)
    requires Agents(s) && OwnSlots(s.holds)
    requires t.place.InQueue? || t.place.InMain? || t.place == InDelays(t.msg.id)
    requires t.place.InDelays? ==> Held(s.holds, t.place) == []
    requires forall p :: Held(s'.holds, p) == if p == t.place then Held(s.holds, p) + [t.msg] else Held(s.holds, p)
    requires s'.dispatchers == s.dispatchers && s'.workers == s.workers
    ensures Agents(s') && OwnSlots(s'.holds)
  {
    forall d
      ensures DispatcherHand(s', d)
    {
      assert DispatcherHand(s, d);
    }
    forall w
      ensures WorkerHand(s', w)
    {
      assert WorkerHand(s, w);
    }
    forall id
      ensures SlotOf(id, Held(s'.holds, InDelays(id)))
    {
      assert SlotOf(id, Held(s.holds, InDelays(id)));
    }
  }

  lemma LifecycleStep(s: System, e: EnvAct)
    requires Inv(s) && EnvEnabled(s, e) && !e.Submit? && !e.SubmitToMain?
    ensures Inv(Next(s, Env(e)))
  {
    var s' := Next(s, Env(e));
    StillKeepsBooks(s, s');
    LifecycleAgents(s, e);
  }

  lemma LifecycleAgents(s: System, e: EnvAct)
    requires Agents(s) && NamingOk(s) && EnvEnabled(s, e) && !e.Submit? && !e.SubmitToMain?
    ensures Agents(Next(s, Env(e))) && NamingOk(Next(s, Env(e)))
  {
    var s' := Next(s, Env(e));
    assert s'.holds == s.holds;
    forall d
      ensures DispatcherHand(s', d)
    {
      assert DispatcherHand(s, d);
    }
    forall w
      ensures WorkerHand(s', w)
    {
      assert WorkerHand(s, w);
    }
    assert e.CreateWorker? ==> s'.workers.Keys == s.workers.Keys + {e.w};
    assert e.DeleteWorker? || e.CloseInbox? ==> s'.workers.Keys == s.workers.Keys;
  }

  lemma StepKeepsInv(s: System, step: Step)
    requires Inv(s) && Enabled(s, step)
    ensures Inv(Next(s, step))
  {
    match step {
      case Env(e) =>
        if e.Submit? || e.SubmitToMain? {
          ArrivalStep(s, e, EnvMove(e).put.value.place);
        } else {
          LifecycleStep(s, e);
        }
      case Disp(d, a) => DispatcherStep(s, d, a);
      case Work(w, a) => WorkerStep(s, w, a);
      case Loop(a) => LoopStep(s, a);
    }
  }

  // ---- Runs ----------------------------------------------------------------

  ghost predicate StepAt(states: seq<System>, steps: seq<Step>, i: int) {
    && 0 <= i < |steps| && i + 1 < |states|
    && Enabled(states[i], steps[i]) && states[i + 1] == Next(states[i], steps[i])
  }

  ghost predicate IsRun(states: seq<System>, steps: seq<Step>) {
    && |states| == |steps| + 1 && Initial(states[0])
    && forall i :: 0 <= i < |steps| ==> StepAt(states, steps, i)
  }

  lemma InitialInv(s: System)
    requires Initial(s)
    ensures Inv(s)
  {
  }

  lemma NextInv(states: seq<System>, steps: seq<Step>, i: nat)
    requires i > 0 && StepAt(states, steps, i - 1) && Inv(states[i - 1])
    ensures Inv(states[i])
  {
    StepKeepsInv(states[i - 1], steps[i - 1]);
  }

  lemma {:induction false} RunInv(states: seq<System>, steps: seq<Step>, i: nat)
    requires IsRun(states, steps) && i <= |steps|
    ensures Inv(states[i])
  {
    if i == 0 {
      InitialInv(states[0]);
    } else {
      RunInv(states, steps, i - 1);
      assert StepAt(states, steps, i - 1);
      NextInv(states, steps, i);
    }
  }

  // ---- Conservation --------------------------------------------------------

  /** The id a step brings into the system. */
  function Brought(step: Step): set<string> {
    if step.Env? && (step.e.Submit? || step.e.SubmitToMain?) then {step.e.m.id} else {}
  }

  function AllBrought(steps: seq<Step>): set<string> {
    if steps == [] then {} else AllBrought(steps[..|steps| - 1]) + Brought(steps[|steps| - 1])
  }

  lemma TakenIsHead(s: System, step: Step)
    requires Enabled(s, step)
    ensures MoveOf(s, step).take.Some? ==> Head(s, MoveOf(s, step).take.value).Some?
  {
  }

  lemma MoveOfStep(s: System, step: Step)
    requires Inv(s) && Enabled(s, step) && !step.Env?
    ensures StillOrLawful(s, MoveOf(s, step))
    ensures MoveOf(s, step).take.Some? ==> Head(s, MoveOf(s, step).take.value).Some?
  {
    HeadsReady(s);
    TakenIsHead(s, step);
    match step {
      case Disp(d, a) => DispatcherLawful(s, d, a);
      case Work(w, a) =>
        assert WorkerHand(s, w);
        WorkerLawful(s, w, a);
      case Loop(a) => LoopLawful(s, a);
    }
  }

  lemma StepKeys(s: System, step: Step)
    requires Inv(s) && Enabled(s, step)
    ensures Next(s, step).ledgers.Keys == s.ledgers.Keys + Brought(step)
  {
    if !step.Env? {
      MoveOfStep(s, step);
      LawfulKeys(s, MoveOf(s, step));
    }
  }

  lemma LawfulKeys(s: System, v: Move)
    requires StillOrLawful(s, v) && (v.take.Some? ==> Head(s, v.take.value).Some?)
    ensures Apply(s, v).ledgers.Keys == s.ledgers.Keys
  {
  }

  lemma RunStepKeys(states: seq<System>, steps: seq<Step>, i: nat)
    requires IsRun(states, steps) && i < |steps|
    ensures states[i + 1].ledgers.Keys == states[i].ledgers.Keys + Brought(steps[i])
  {
    RunInv(states, steps, i);
    assert StepAt(states, steps, i);
    StepKeys(states[i], steps[i]);
  }

  lemma {:induction false} RunKeys(states: seq<System>, steps: seq<Step>, i: nat)
    requires IsRun(states, steps) && i <= |steps|
    ensures states[i].ledgers.Keys == AllBrought(steps[..i])
  {
    if i > 0 {
      RunKeys(states, steps, i - 1);
      RunStepKeys(states, steps, i - 1);
      assert steps[..i][..i - 1] == steps[..i - 1];
    }
  }

  /**
   In every state of every run, a message is somewhere exactly if it was submitted,
   and never at two positions: not twice in a place, and not in two places.
   */
  lemma Conservation(states: seq<System>, steps: seq<Step>, i: nat, id: string)
    requires IsRun(states, steps) && i <= |steps|
    ensures id in AllBrought(steps[..i]) <==> Present(states[i].holds, id)
    ensures OneCopy(states[i].holds)
  {
    RunInv(states, steps, i);
    RunKeys(states, steps, i);
    PresentIsBooked(states[i], id);
  }

  lemma PresentIsBooked(s: System, id: string)
    requires Books(s)
    ensures Present(s.holds, id) <==> id in s.ledgers
  {
    if Present(s.holds, id) {
      var p, k :| 0 <= k < |Held(s.holds, p)| && Held(s.holds, p)[k].id == id;
    }
  }

  predicate IsFailure(step: Step) {
    || (step.Disp? && step.a.FailRelay?)
    || (step.Work? && (step.b.FailRun? || step.b.FailSend?))
    || (step.Loop? && step.c.FailReady?)
  }

  lemma OnlyFailuresFail(s: System, step: Step)
    requires Enabled(s, step) && !IsFailure(step)
    ensures MoveOf(s, step).put.Some? ==> !MoveOf(s, step).put.value.place.Failed?
    ensures MoveOf(s, step).take.Some? ==> !MoveOf(s, step).take.value.Failed?
  {
  }

  /** Where every send and every status report succeeds, no message is lost to a failed call. */
  lemma {:induction false} NothingFails(states: seq<System>, steps: seq<Step>, i: nat)
    requires IsRun(states, steps) && i <= |steps|
    requires forall k :: 0 <= k < i ==> !IsFailure(steps[k])
    ensures Held(states[i].holds, Place.Failed) == []
  {
    if i > 0 {
      NothingFails(states, steps, i - 1);
      assert StepAt(states, steps, i - 1);
      OnlyFailuresFail(states[i - 1], steps[i - 1]);
    }
  }

  // ---- Targeting -----------------------------------------------------------

  /**
   Every message waiting in a worker's inbox carries that worker's name, so the
   worker that takes it out never finds it misrouted.
   */
  lemma InboxIsStamped(states: seq<System>, steps: seq<Step>, i: nat, w: string, k: nat)
    requires IsRun(states, steps) && i <= |steps| && k < |Held(states[i].holds, InInbox(w))|
    ensures Held(states[i].holds, InInbox(w))[k].toWorker == Some(w)
    ensures !WP.IsMisrouted(w, Held(states[i].holds, InInbox(w))[k])
  {
    RunInv(states, steps, i);
    assert Held(states[i].holds, InInbox(w))[k].id in states[i].ledgers;
  }

  /** Worker `w` is about to run message `m`: it holds it and does not find it misrouted. */
  ghost predicate RunsNow(s: System, w: string, m: EMessage) {
    && w in s.workers && s.workers[w].phase.WHolding? && Head(s, AtWorker(w)) == Some(m)
    && !Misrouted(s, w, m)
  }

  lemma RunnerInInv(s: System, w: string, m: EMessage)
    requires WorkerHand(s, w) && HeadReady(s, AtWorker(w)) && RunsNow(s, w, m)
    ensures
      var l := s.ledgers[m.id];
      && (l.first.toWorker.Some? ==> TargetOk(w, l.first.toWorker.value, s.workers.Keys, s.nodes))
      && (l.handler.Some? ==> l.handler == Some(w))
  {
  }

  lemma RunnerInRun(states: seq<System>, steps: seq<Step>, i: nat, w: string, m: EMessage)
    requires IsRun(states, steps) && i <= |steps| && RunsNow(states[i], w, m)
    ensures
      var l := states[i].ledgers[m.id];
      && (l.first.toWorker.Some? ==> TargetOk(w, l.first.toWorker.value, states[i].workers.Keys, states[i].nodes))
      && (l.handler.Some? ==> l.handler == Some(w))
  {
    RunInv(states, steps, i);
    HeadsReady(states[i]);
    assert HeadReady(states[i], AtWorker(w)) && WorkerHand(states[i], w);
    RunnerInInv(states[i], w, m);
  }

  /**
   A message that entered its topic aimed at `target` is only ever run by the
   worker of that name or by a worker that is the target in some node's qualified form.
   */
  lemma HandledByItsTarget(states: seq<System>, steps: seq<Step>, i: nat, w: string, m: EMessage)
    requires IsRun(states, steps) && i <= |steps| && RunsNow(states[i], w, m)
    requires states[i].ledgers[m.id].first.toWorker.Some?
    ensures
      var target := states[i].ledgers[m.id].first.toWorker.value;
      w == target || exists n :: n in states[i].nodes && w == Qualified(n, target)
  {
    RunnerInRun(states, steps, i, w, m);
  }

  /** Once a stamped message has been run, only the same worker runs it again on that topic. */
  lemma SameWorkerEveryTime(states: seq<System>, steps: seq<Step>, i: nat, w: string, m: EMessage)
    requires IsRun(states, steps) && i <= |steps| && RunsNow(states[i], w, m)
    requires states[i].ledgers[m.id].handler.Some?
    ensures states[i].ledgers[m.id].handler == Some(w)
  {
    RunnerInRun(states, steps, i, w, m);
  }

  // ---- Bounded runs and relays ---------------------------------------------

  /** What the invariant says about one ledger. */
  ghost predicate WithinLimits(l: Ledger) {
    && l.relays <= Max(MAX_TARGETED_HOPS - l.first.attempts, 0)
    && (Owed(l.first) >= 1 ==> l.runs <= Owed(l.first) + Max(l.maxRetries - l.first.attempts, 1) - 1)
  }

  lemma LedgersWithinLimits(s: System)
    requires Books(s)
    ensures forall id :: id in s.ledgers ==> WithinLimits(s.ledgers[id])
    ensures forall k :: 0 <= k < |s.closed| ==> WithinLimits(s.closed[k])
  {
  }

  lemma RunLedgers(states: seq<System>, steps: seq<Step>, i: nat)
    requires IsRun(states, steps) && i <= |steps|
    ensures forall id :: id in states[i].ledgers ==> WithinLimits(states[i].ledgers[id])
    ensures forall k :: 0 <= k < |states[i].closed| ==> WithinLimits(states[i].closed[k])
  {
    RunInv(states, steps, i);
    LedgersWithinLimits(states[i]);
  }

  /**
   On its topic, a message that entered with `a` attempts and still owed `n` runs
   is relayed at most 64 - a times and run at most n + max(R - a, 1) - 1 times,
   where R is the largest retry limit any handler gave it. The ledgers of its
   earlier topics keep the same limits.
   */
  lemma RunsAndRelaysAreBounded(states: seq<System>, steps: seq<Step>, i: nat, l: Ledger)
    requires IsRun(states, steps) && i <= |steps|
    requires l in states[i].ledgers.Values || l in states[i].closed
    ensures l.relays <= Max(MAX_TARGETED_HOPS - l.first.attempts, 0)
    ensures Owed(l.first) >= 1 ==> l.runs <= Owed(l.first) + Max(l.maxRetries - l.first.attempts, 1) - 1
    ensures l.first.attempts == 0 && l.first.deliveryMode.Standard? ==>
              l.relays <= MAX_TARGETED_HOPS && l.runs <= Max(l.maxRetries, 1)
  {
    RunLedgers(states, steps, i);
  }

  /** What the invariant says about a dropped message. */
  lemma DroppedInInv(s: System, k: nat)
    requires Books(s) && k < |Held(s.holds, Dropped)|
    ensures
      var m := Held(s.holds, Dropped)[k];
      && m.id in s.ledgers
      && var l := s.ledgers[m.id];
         && m.toWorker.Some?
         && l.first.attempts + l.relays + l.retries >= MAX_TARGETED_HOPS
         && (l.retries == 0 ==> l.relays == Max(MAX_TARGETED_HOPS - l.first.attempts, 0))
  {
  }

  /** A message dropped before any retry was relayed exactly up to the cap; retries use up the same counter. */
  lemma DroppedExactlyAtTheCap(states: seq<System>, steps: seq<Step>, i: nat, k: nat)
    requires IsRun(states, steps) && i <= |steps| && k < |Held(states[i].holds, Dropped)|
    ensures
      var m := Held(states[i].holds, Dropped)[k];
      && m.id in states[i].ledgers
      && var l := states[i].ledgers[m.id];
         && m.toWorker.Some?
         && l.first.attempts + l.relays + l.retries >= MAX_TARGETED_HOPS
         && (l.retries == 0 ==> l.relays == Max(MAX_TARGETED_HOPS - l.first.attempts, 0))
  {
    RunInv(states, steps, i);
    DroppedInInv(states[i], k);
  }
}

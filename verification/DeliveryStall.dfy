/**
 A topic queue that stays full: every dispatcher of the topic waits for room to give
 its message back, and nobody else reads the queue.
 */
module DeliveryStall {
  import opened Messages
  import opened Delivery
  import opened DeliveryRuns

  /** The dispatcher sits in a blocking send onto its own queue. */
  predicate Waits(disp: Dispatcher) {
    disp.phase.DNacking? || disp.phase.DRelaying?
  }

  predicate Reads(ws: WorkerState, t: string) {
    ws.kind.FromQueue? && ws.topic == t && ws.alive
  }

  ghost predicate Wedged(s: System, t: string) {
    && t in s.topics && s.capacity <= |Held(s.holds, InQueue(t))|
    && (forall d :: d in s.dispatchers && s.dispatchers[d].topic == t ==> Waits(s.dispatchers[d]))
    && (forall w :: w in s.workers ==> !Reads(s.workers[w], t))
  }

  /** A new reader of the queue, or a relay whose send fails. */
  predicate Frees(s: System, step: Step, t: string) {
    match step
    case Env(StartDispatcher(_, _, topic)) => topic == t
    case Env(CreateWorker(_, kind, topic)) => kind.FromQueue? && topic == t
    case Disp(d, FailRelay) => d in s.dispatchers && s.dispatchers[d].topic == t
    case _ => false
  }

  /** The messages waiting on the topic: in its queue and in the hands of its dispatchers. */
  ghost predicate SameWaiting(s: System, s': System, t: string) {
    && Held(s'.holds, InQueue(t)) == Held(s.holds, InQueue(t))
    && forall d :: d in s.dispatchers && s.dispatchers[d].topic == t ==>
         d in s'.dispatchers && s'.dispatchers[d] == s.dispatchers[d]
         && Held(s'.holds, AtDispatcher(d)) == Held(s.holds, AtDispatcher(d))
  }

  // ---- One step ------------------------------------------------------------

  /** A place that a move neither takes from nor puts into. */
  ghost predicate Spares(v: Move, p: Place) {
    (v.take.Some? ==> v.take.value != p) && (v.put.Some? ==> v.put.value.place != p)
  }

  lemma SparedIsKept(s: System, v: Move, p: Place)
    requires Spares(v, p) && !p.InDelays?
    ensures Held(Apply(s, v).holds, p) == Held(s.holds, p)
  {
  }

  /** The queue and the hands of its dispatchers: what a wedge freezes. */
  predicate Waiting(s: System, p: Place, t: string) {
    || p == InQueue(t)
    || (p.AtDispatcher? && p.d in s.dispatchers && s.dispatchers[p.d].topic == t)
  }

  lemma DispatcherSpares(s: System, d: string, a: DispatcherAct, t: string, p: Place)
    requires Wedged(s, t) && Enabled(s, Disp(d, a)) && !Frees(s, Disp(d, a), t) && Waiting(s, p, t)
    ensures Spares(DispatcherMove(s, d, a), p) && s.dispatchers[d].topic != t
  {
  }

  lemma WorkerSpares(s: System, w: string, a: WorkerAct, t: string, p: Place)
    requires Wedged(s, t) && Enabled(s, Work(w, a)) && Waiting(s, p, t)
    ensures Spares(WorkerMove(s, w, a), p)
  {
  }

  lemma LoopSpares(s: System, a: LoopAct, t: string, p: Place)
    requires Wedged(s, t) && Enabled(s, Loop(a)) && Waiting(s, p, t)
    ensures Spares(LoopMove(s, a), p)
  {
  }

  lemma WedgedMoveSpares(s: System, step: Step, t: string, p: Place)
    requires Wedged(s, t) && Enabled(s, step) && !Frees(s, step, t) && Waiting(s, p, t)
    ensures Spares(MoveOf(s, step), p)
  {
    match step {
      case Env(e) =>
      case Disp(d, a) => DispatcherSpares(s, d, a, t, p);
      case Work(w, a) => WorkerSpares(s, w, a, t, p);
      case Loop(a) => LoopSpares(s, a, t, p);
    }
  }

  lemma WedgedStepFreezes(s: System, step: Step, t: string)
    requires Wedged(s, t) && Enabled(s, step) && !Frees(s, step, t)
    ensures SameWaiting(s, Next(s, step), t)
  {
    forall p | Waiting(s, p, t)
      ensures Held(Next(s, step).holds, p) == Held(s.holds, p)
    {
      WedgedMoveSpares(s, step, t, p);
      SparedIsKept(s, MoveOf(s, step), p);
    }
    assert Waiting(s, InQueue(t), t);
    forall d | d in s.dispatchers && s.dispatchers[d].topic == t
      ensures d in Next(s, step).dispatchers && Next(s, step).dispatchers[d] == s.dispatchers[d]
      ensures Held(Next(s, step).holds, AtDispatcher(d)) == Held(s.holds, AtDispatcher(d))
    {
      assert Waiting(s, AtDispatcher(d), t);
    }
  }

  lemma EnvGainsNoReader(s: System, e: EnvAct, t: string, w: string)
    requires Wedged(s, t) && EnvEnabled(s, e) && !Frees(s, Env(e), t) && w in EnvControl(s, e).workers
    ensures !Reads(EnvControl(s, e).workers[w], t)
  {
  }

  /** The only worker the receive loop adds is a one-shot one. */
  lemma LoopGainsNoReader(s: System, a: LoopAct, t: string, w: string)
    requires Wedged(s, t) && LoopEnabled(s, a) && w in LoopControl(s, a).workers
    ensures !Reads(LoopControl(s, a).workers[w], t)
  {
    assert LoopControl(s, a).workers[w].kind.Ephemeral? || (w in s.workers && LoopControl(s, a).workers[w] == s.workers[w]);
  }

  lemma GainsNoReader(s: System, step: Step, t: string, w: string)
    requires Wedged(s, t) && Enabled(s, step) && !Frees(s, step, t) && w in ControlOf(s, step).workers
    ensures !Reads(ControlOf(s, step).workers[w], t)
  {
    match step {
      case Env(e) => EnvGainsNoReader(s, e, t, w);
      case Loop(a) => LoopGainsNoReader(s, a, t, w);
      case _ => assert w in s.workers && !Reads(s.workers[w], t);
    }
  }

  lemma GainsNoDispatcher(s: System, step: Step, t: string, d: string)
    requires Wedged(s, t) && Enabled(s, step) && !Frees(s, step, t)
    requires d in ControlOf(s, step).dispatchers && ControlOf(s, step).dispatchers[d].topic == t
    ensures d in s.dispatchers && s.dispatchers[d].topic == t
  {
  }

  lemma StaysWedged(s: System, step: Step, t: string)
    requires Wedged(s, t) && Enabled(s, step) && !Frees(s, step, t) && SameWaiting(s, Next(s, step), t)
    ensures Wedged(Next(s, step), t)
  {
    var control := ControlOf(s, step);
    forall d | d in control.dispatchers && control.dispatchers[d].topic == t
      ensures Waits(control.dispatchers[d])
    {
      GainsNoDispatcher(s, step, t, d);
    }
    forall w | w in control.workers
      ensures !Reads(control.workers[w], t)
    {
      GainsNoReader(s, step, t, w);
    }
  }

  lemma FreedIsNotWedged(s: System, step: Step, t: string)
    requires Enabled(s, step) && Frees(s, step, t)
    ensures !Wedged(Next(s, step), t)
  {
    var s' := Next(s, step);
    match step {
      case Env(StartDispatcher(d, _, _)) => assert !Waits(s'.dispatchers[d]);
      case Env(CreateWorker(w, _, _)) => assert Reads(s'.workers[w], t);
      case Disp(d, _) => assert !Waits(s'.dispatchers[d]);
    }
  }

  /** A wedge outlasts a step unless the step brings a reader or fails a relay of the topic's own. */
  lemma WedgedExactlyUntilFreed(s: System, step: Step, t: string)
    requires Wedged(s, t) && Enabled(s, step)
    ensures Wedged(Next(s, step), t) <==> !Frees(s, step, t)
    ensures !Frees(s, step, t) ==> SameWaiting(s, Next(s, step), t)
  {
    if Frees(s, step, t) {
      FreedIsNotWedged(s, step, t);
    } else {
      WedgedStepFreezes(s, step, t);
      StaysWedged(s, step, t);
    }
  }

  // ---- Runs ----------------------------------------------------------------

  /**
   From a wedged state on, however the run goes, what waits on the topic stays where
   it is until somebody new reads the queue or a relay fails.
   */
  lemma {:induction false} WedgeLastsUntilFreed(states: seq<System>, steps: seq<Step>, i: nat, n: nat, t: string)
    requires IsRun(states, steps) && i <= n <= |steps| && Wedged(states[i], t)
    requires forall k :: i <= k < n ==> !Frees(states[k], steps[k], t)
    ensures Wedged(states[n], t) && SameWaiting(states[i], states[n], t)
    decreases n - i
  {
    if i < n {
      WedgeLastsUntilFreed(states, steps, i, n - 1, t);
      assert StepAt(states, steps, n - 1);
      WedgedExactlyUntilFreed(states[n - 1], steps[n - 1], t);
    }
  }

  lemma Longer(states: seq<System>, steps: seq<Step>, step: Step) returns (more: seq<System>, done: seq<Step>)
    requires IsRun(states, steps) && Enabled(states[|steps|], step)
    ensures IsRun(more, done) && more[|done|] == Next(states[|steps|], step)
  {
    more, done := states + [Next(states[|steps|], step)], steps + [step];
    forall i | 0 <= i < |done|
      ensures StepAt(more, done, i)
    {
      assert i < |steps| ==> StepAt(states, steps, i);
    }
  }

  function Name(k: nat): string {
    seq(k, _ => 'm')
  }

  function Filler(t: string, k: nat): EMessage {
    EMessage(Name(k), t, [], 0, Standard, 0, None, None)
  }

  const DISPATCHER := "d"

  /** One dispatcher of the topic, no worker, and no message numbered from `k` on seen so far. */
  ghost predicate Lone(s: System, capacity: nat, t: string, phase: DispatcherPhase, k: nat) {
    && s.capacity == capacity && t in s.topics && s.workers == map[]
    && (forall j :: k <= j ==> Name(j) !in s.ledgers)
    && s.dispatchers == map[DISPATCHER := Dispatcher(None, t, [], 0, phase)]
  }

  lemma SubmitFiller(s: System, capacity: nat, t: string, phase: DispatcherPhase, k: nat)
    requires Lone(s, capacity, t, phase, k) && HasRoom(s, t)
    ensures
      var step := Env(Submit(Filler(t, k)));
      && Enabled(s, step) && Lone(Next(s, step), capacity, t, phase, k + 1)
      && Held(Next(s, step).holds, InQueue(t)) == Held(s.holds, InQueue(t)) + [Filler(t, k)]
      && Name(k) in Next(s, step).ledgers
  {
    assert forall j :: k < j ==> |Name(j)| != |Name(k)|;
  }

  lemma ClaimFiller(s: System, capacity: nat, t: string)
    requires Lone(s, capacity, t, DIdle, 1) && Held(s.holds, InQueue(t)) == [Filler(t, 0)] && Name(0) in s.ledgers
    requires Held(s.holds, AtDispatcher(DISPATCHER)) == []
    ensures
      var step := Disp(DISPATCHER, ClaimNext);
      && Enabled(s, step) && Lone(Next(s, step), capacity, t, DClaimed, 1)
      && Held(Next(s, step).holds, InQueue(t)) == [] && Name(0) in Next(s, step).ledgers
      && Held(Next(s, step).holds, AtDispatcher(DISPATCHER)) == [Filler(t, 0)]
  {
    var s' := Next(s, Disp(DISPATCHER, ClaimNext));
    assert Head(s, InQueue(t)) == Some(Filler(t, 0));
    assert s'.ledgers.Keys == s.ledgers.Keys;
  }

  /** With no worker cached, the claim cannot be delivered. */
  lemma RefuseFiller(s: System, capacity: nat, t: string)
    requires Lone(s, capacity, t, DClaimed, 1) && Held(s.holds, InQueue(t)) == [] && Name(0) in s.ledgers
    requires Held(s.holds, AtDispatcher(DISPATCHER)) == [Filler(t, 0)]
    ensures
      var step := Disp(DISPATCHER, DispatchClaim);
      && Enabled(s, step) && Lone(Next(s, step), capacity, t, DNacking, 1)
      && Held(Next(s, step).holds, InQueue(t)) == []
  {
    var s' := Next(s, Disp(DISPATCHER, DispatchClaim));
    assert Head(s, AtDispatcher(DISPATCHER)) == Some(Filler(t, 0));
    assert s'.ledgers == s.ledgers;
  }

  lemma OneDispatcherRun(capacity: nat, t: string) returns (states: seq<System>, steps: seq<Step>)
    ensures IsRun(states, steps)
    ensures Lone(states[|steps|], capacity, t, DIdle, 0) && states[|steps|].holds == map[]
  {
    states, steps := [System(capacity, 1, {}, map[], {}, map[], map[], map[], [])], [];
    states, steps := Longer(states, steps, Env(RegisterTopic(t)));
    states, steps := Longer(states, steps, Env(StartDispatcher(DISPATCHER, None, t)));
  }

  lemma ParkedRun(capacity: nat, t: string) returns (states: seq<System>, steps: seq<Step>)
    requires 0 < capacity
    ensures IsRun(states, steps)
    ensures Lone(states[|steps|], capacity, t, DNacking, 1) && Held(states[|steps|].holds, InQueue(t)) == []
  {
    states, steps := OneDispatcherRun(capacity, t);
    var s := states[|steps|];
    SubmitFiller(s, capacity, t, DIdle, 0);
    states, steps := Longer(states, steps, Env(Submit(Filler(t, 0))));
    s := states[|steps|];
    assert Held(s.holds, AtDispatcher(DISPATCHER)) == [];
    ClaimFiller(s, capacity, t);
    states, steps := Longer(states, steps, Disp(DISPATCHER, ClaimNext));
    s := states[|steps|];
    RefuseFiller(s, capacity, t);
    states, steps := Longer(states, steps, Disp(DISPATCHER, DispatchClaim));
  }

  lemma {:induction false} FillingRun(capacity: nat, t: string, k: nat) returns (states: seq<System>, steps: seq<Step>)
    requires k <= capacity && 0 < capacity
    ensures IsRun(states, steps)
    ensures Lone(states[|steps|], capacity, t, DNacking, k + 1) && |Held(states[|steps|].holds, InQueue(t))| == k
  {
    if k == 0 {
      states, steps := ParkedRun(capacity, t);
    } else {
      states, steps := FillingRun(capacity, t, k - 1);
      SubmitFiller(states[|steps|], capacity, t, DNacking, k);
      states, steps := Longer(states, steps, Env(Submit(Filler(t, k))));
    }
  }

  /** Whatever the capacity, a topic whose dispatcher finds no worker can be wedged by as many messages more. */
  lemma WedgeIsReachable(capacity: nat, t: string) returns (states: seq<System>, steps: seq<Step>)
    requires 0 < capacity
    ensures IsRun(states, steps) && states[|steps|].capacity == capacity
    ensures Wedged(states[|steps|], t)
    ensures exists d :: d in states[|steps|].dispatchers && states[|steps|].dispatchers[d].topic == t
  {
    states, steps := FillingRun(capacity, t, capacity);
    assert DISPATCHER in states[|steps|].dispatchers;
  }
}

/**
 The locks of the consumer router: the global lock every caller goes through, shared
 or exclusively, and inside it the topic map, the worker index and the idle pool.
 Deleting a worker takes the index before the topics, everybody else the topics
 before the index.
 */
module LockOrder {
  datatype Lock = Router | Idle | Topics | Index

  datatype Mode = Shared | Exclusive

  datatype Request = Request(lock: Lock, mode: Mode)

  /**
   The calls that take two locks, and those that use one of the two maps only. Deleting
   a worker that is not indexed is of the second kind.
   */
  datatype Call =
    | RegisterWorker | DelWorker | DelWorkers | GetWorkers | PickIdle
    | UseTopics(mode: Mode) | UseIndex(mode: Mode)

  /** A call and the way its caller holds the global lock meanwhile. */
  datatype Caller = Caller(guard: Mode, call: Call)

  /** The locks a call takes, in order; it releases them together at its end. */
  function Plan(call: Call): seq<Request> {
    match call
    case RegisterWorker => [Request(Topics, Exclusive), Request(Index, Exclusive)]
    case DelWorker => [Request(Index, Exclusive), Request(Topics, Exclusive)]
    case DelWorkers => [Request(Topics, Exclusive), Request(Index, Exclusive)]
    case GetWorkers => [Request(Topics, Shared), Request(Index, Shared)]
    case PickIdle => [Request(Idle, Exclusive), Request(Index, Shared)]
    case UseTopics(mode) => [Request(Topics, mode)]
    case UseIndex(mode) => [Request(Index, mode)]
  }

  function Guard(mode: Mode): Request {
    Request(Router, mode)
  }

  function Requests(c: Caller): seq<Request> {
    [Guard(c.guard)] + Plan(c.call)
  }

  datatype Thread = Thread(caller: Caller, held: seq<Request>, wanted: seq<Request>)

  type State = map<nat, Thread>

  /** `Again` is the next call under the same guard. */
  datatype Step = Begin(a: nat, caller: Caller) | Acquire(a: nat) | Again(a: nat, call: Call) | End(a: nat)

  predicate Conflict(a: Request, b: Request) {
    a.lock == b.lock && (a.mode.Exclusive? || b.mode.Exclusive?)
  }

  predicate Blocks(t: Thread, r: Request) {
    exists i :: 0 <= i < |t.held| && Conflict(t.held[i], r)
  }

  /** The thread has what it needs, or nobody is in the way of its next lock. */
  predicate CanMove(s: State, a: nat)
    requires a in s
  {
    s[a].wanted == [] || forall b :: b in s && b != a ==> !Blocks(s[b], s[a].wanted[0])
  }

  /** `permitted` says which calls are made and under which guard. */
  predicate Enabled(permitted: set<Caller>, s: State, step: Step) {
    match step
    case Begin(a, caller) => a !in s && caller in permitted
    case Acquire(a) => a in s && s[a].wanted != [] && CanMove(s, a)
    case Again(a, call) => a in s && s[a].wanted == [] && Caller(s[a].caller.guard, call) in permitted
    case End(a) => a in s && s[a].wanted == []
  }

  function Next(permitted: set<Caller>, s: State, step: Step): State
    requires Enabled(permitted, s, step)
  {
    match step
    case Begin(a, caller) => s[a := Thread(caller, [], Requests(caller))]
    case Acquire(a) => s[a := Thread(s[a].caller, s[a].held + [s[a].wanted[0]], s[a].wanted[1..])]
    case Again(a, call) => s[a := Thread(Caller(s[a].caller.guard, call), [Guard(s[a].caller.guard)], Plan(call))]
    case End(a) => s - {a}
  }

  // ---- Mutual exclusion ----------------------------------------------------

  predicate WellFormed(permitted: set<Caller>, t: Thread) {
    t.caller in permitted && t.held + t.wanted == Requests(t.caller)
  }

  /** What one thread holds is in nobody else's way. */
  ghost predicate Apart(t: Thread, u: Thread) {
    forall i :: 0 <= i < |t.held| ==> !Blocks(u, t.held[i])
  }

  ghost predicate Inv(permitted: set<Caller>, s: State) {
    && (forall a :: a in s ==> WellFormed(permitted, s[a]))
    && (forall a, b :: a in s && b in s && a != b ==> Apart(s[a], s[b]))
  }

  lemma ApartIsSymmetric(t: Thread, u: Thread)
    requires Apart(t, u)
    ensures Apart(u, t)
  {
    forall i | 0 <= i < |u.held|
      ensures !Blocks(t, u.held[i])
    {
      forall j | 0 <= j < |t.held|
        ensures !Conflict(t.held[j], u.held[i])
      {
        assert !Blocks(u, t.held[j]);
      }
    }
  }

  lemma MovedIsWellFormed(permitted: set<Caller>, s: State, step: Step)
    requires Inv(permitted, s) && Enabled(permitted, s, step) && !step.End?
    ensures WellFormed(permitted, Next(permitted, s, step)[step.a])
  {
    if step.Acquire? {
      var t := s[step.a];
      assert WellFormed(permitted, t);
      assert t.held + [t.wanted[0]] + t.wanted[1..] == t.held + t.wanted;
    }
  }

  lemma AcquiredIsApart(t: Thread, u: Thread, r: Request)
    requires Apart(t, u) && !Blocks(u, r)
    ensures Apart(t.(held := t.held + [r]), u)
  {
  }

  /** Between two calls a thread keeps its guard. */
  lemma GuardIsApart(t: Thread, u: Thread, v: Thread)
    requires t.wanted == [] && t.held + t.wanted == Requests(t.caller) && Apart(t, u) && v.held == [Guard(t.caller.guard)]
    ensures Apart(v, u)
  {
    assert t.held == Requests(t.caller);
    assert v.held[0] == t.held[0];
  }

  lemma MovedIsApart(permitted: set<Caller>, s: State, step: Step, b: nat)
    requires Inv(permitted, s) && Enabled(permitted, s, step) && !step.End? && b in s && b != step.a
    ensures Apart(Next(permitted, s, step)[step.a], s[b])
  {
    var t := Next(permitted, s, step)[step.a];
    match step {
      case Begin(_, _) => assert t.held == [];
      case Acquire(a) => AcquiredIsApart(s[a], s[b], s[a].wanted[0]);
      case Again(a, _) => GuardIsApart(s[a], s[b], t);
    }
  }

  lemma StepKeepsInv(permitted: set<Caller>, s: State, step: Step)
    requires Inv(permitted, s) && Enabled(permitted, s, step)
    ensures Inv(permitted, Next(permitted, s, step))
  {
    if !step.End? {
      MovedIsWellFormed(permitted, s, step);
      var s' := Next(permitted, s, step);
      forall b | b in s && b != step.a
        ensures Apart(s'[step.a], s'[b]) && Apart(s'[b], s'[step.a])
      {
        MovedIsApart(permitted, s, step, b);
        ApartIsSymmetric(s'[step.a], s'[b]);
      }
    }
  }

  ghost predicate StepAt(permitted: set<Caller>, states: seq<State>, steps: seq<Step>, i: int) {
    && 0 <= i < |steps| && i + 1 < |states|
    && Enabled(permitted, states[i], steps[i]) && states[i + 1] == Next(permitted, states[i], steps[i])
  }

  ghost predicate IsRun(permitted: set<Caller>, states: seq<State>, steps: seq<Step>) {
    && |states| == |steps| + 1 && states[0] == map[]
    && forall i :: 0 <= i < |steps| ==> StepAt(permitted, states, steps, i)
  }

  lemma {:induction false} RunInv(permitted: set<Caller>, states: seq<State>, steps: seq<Step>, i: nat)
    requires IsRun(permitted, states, steps) && i <= |steps|
    ensures Inv(permitted, states[i])
  {
    if i > 0 {
      RunInv(permitted, states, steps, i - 1);
      assert StepAt(permitted, states, steps, i - 1);
      StepKeepsInv(permitted, states[i - 1], steps[i - 1]);
    }
  }

  // ---- Progress when the orders do not mix ---------------------------------

  predicate TopicsFirst(call: Call) {
    call.RegisterWorker? || call.DelWorkers? || call.GetWorkers?
  }

  /** A worker is deleted, and a call takes the topics first, under guards that do not exclude each other. */
  predicate Mixes(permitted: set<Caller>) {
    exists c, d :: c in permitted && d in permitted && Mixed(c, d)
  }

  predicate Mixed(c: Caller, d: Caller) {
    c.call.DelWorker? && TopicsFirst(d.call) && c.guard.Shared? && d.guard.Shared?
  }

  /** Past its guard. */
  predicate Inside(t: Thread) {
    t.held != []
  }

  lemma InsideTogether(permitted: set<Caller>, s: State, a: nat, b: nat)
    requires Inv(permitted, s) && a in s && b in s && a != b && Inside(s[a]) && Inside(s[b])
    ensures s[a].caller.guard.Shared? && s[b].caller.guard.Shared?
  {
    assert WellFormed(permitted, s[a]) && WellFormed(permitted, s[b]);
    assert s[a].held[0] == Requests(s[a].caller)[0] && s[b].held[0] == Requests(s[b].caller)[0];
    assert Apart(s[a], s[b]);
    assert !Blocks(s[b], s[a].held[0]);
    assert !Conflict(s[b].held[0], s[a].held[0]);
  }

  /** The order of the locks while workers are being deleted, and while they are not. */
  function Rank(deleting: bool, lock: Lock): nat {
    match lock
    case Router => 1
    case Idle => 2
    case Topics => if deleting then 4 else 3
    case Index => if deleting then 3 else 4
  }

  function Top(deleting: bool, t: Thread): nat {
    if t.held == [] then 0 else Rank(deleting, t.held[|t.held| - 1].lock)
  }

  /** The thread, if inside, goes up in this order. */
  predicate Follows(deleting: bool, t: Thread) {
    Inside(t) ==> if deleting then !TopicsFirst(t.caller.call) else !t.caller.call.DelWorker?
  }

  lemma RequestsAscend(deleting: bool, c: Caller, i: nat, j: nat)
    requires i < j < |Requests(c)| && if deleting then !TopicsFirst(c.call) else !c.call.DelWorker?
    ensures Rank(deleting, Requests(c)[i].lock) < Rank(deleting, Requests(c)[j].lock)
  {
  }

  /** What a thread wants lies above all it holds. */
  lemma WantsHigher(deleting: bool, t: Thread)
    requires t.held + t.wanted == Requests(t.caller) && t.wanted != [] && Follows(deleting, t)
    ensures Top(deleting, t) < Rank(deleting, t.wanted[0].lock)
  {
    if t.held != [] {
      var n := |t.held|;
      assert Requests(t.caller)[n - 1] == t.held[n - 1] && Requests(t.caller)[n] == t.wanted[0];
      RequestsAscend(deleting, t.caller, n - 1, n);
    }
  }

  lemma HoldsLower(deleting: bool, t: Thread, i: nat)
    requires t.held + t.wanted == Requests(t.caller) && i < |t.held| && Follows(deleting, t)
    ensures Rank(deleting, t.held[i].lock) <= Top(deleting, t)
  {
    var n := |t.held|;
    assert Requests(t.caller)[n - 1] == t.held[n - 1] && Requests(t.caller)[i] == t.held[i];
    if i < n - 1 {
      RequestsAscend(deleting, t.caller, i, n - 1);
    }
  }

  /** If nobody inside goes against the order, some thread can move: the one that holds the highest lock. */
  lemma {:induction false} HighestMoves(permitted: set<Caller>, s: State, deleting: bool, a: nat)
    requires Inv(permitted, s) && a in s && forall b :: b in s ==> Follows(deleting, s[b])
    ensures exists b :: b in s && CanMove(s, b)
    decreases 4 - Top(deleting, s[a])
  {
    if !CanMove(s, a) {
      var b :| b in s && b != a && Blocks(s[b], s[a].wanted[0]);
      var i :| 0 <= i < |s[b].held| && Conflict(s[b].held[i], s[a].wanted[0]);
      WantsHigher(deleting, s[a]);
      HoldsLower(deleting, s[b], i);
      HighestMoves(permitted, s, deleting, b);
    }
  }

  /** Unless the orders mix, every reachable state with a thread in it has one that can move. */
  lemma SomeoneMoves(permitted: set<Caller>, s: State, a: nat)
    requires Inv(permitted, s) && a in s && !Mixes(permitted)
    ensures exists b :: b in s && CanMove(s, b)
  {
    var deleting := exists d :: d in s && s[d].caller.call.DelWorker? && Inside(s[d]);
    forall b | b in s
      ensures Follows(deleting, s[b])
    {
      if deleting && Inside(s[b]) && TopicsFirst(s[b].caller.call) {
        var d :| d in s && s[d].caller.call.DelWorker? && Inside(s[d]);
        InsideTogether(permitted, s, d, b);
        assert Mixed(s[d].caller, s[b].caller);
        assert false;
      }
    }
    HighestMoves(permitted, s, deleting, a);
  }

  // ---- Deadlock when they do -----------------------------------------------

  /** Each of the two waits for a lock the other one holds. */
  ghost predicate Deadlocked(s: State, a: nat, b: nat) {
    && a in s && b in s && a != b && s[a].wanted != [] && s[b].wanted != []
    && Blocks(s[b], s[a].wanted[0]) && Blocks(s[a], s[b].wanted[0])
  }

  /** Nobody gets such a pair apart again. */
  lemma {:induction false} DeadlockIsForever(
      permitted: set<Caller>, states: seq<State>, steps: seq<Step>, i: nat, n: nat, a: nat, b: nat)
    requires IsRun(permitted, states, steps) && i <= n <= |steps| && Deadlocked(states[i], a, b)
    ensures Deadlocked(states[n], a, b) && states[n][a] == states[i][a] && states[n][b] == states[i][b]
    decreases n - i
  {
    if i < n {
      DeadlockIsForever(permitted, states, steps, i, n - 1, a, b);
      assert StepAt(permitted, states, steps, n - 1);
    }
  }

  lemma Longer(permitted: set<Caller>, states: seq<State>, steps: seq<Step>, step: Step)
    returns (more: seq<State>, done: seq<Step>)
    requires IsRun(permitted, states, steps) && Enabled(permitted, states[|steps|], step)
    ensures IsRun(permitted, more, done) && |done| == |steps| + 1 && more[|done|] == Next(permitted, states[|steps|], step)
  {
    more, done := states + [Next(permitted, states[|steps|], step)], steps + [step];
    forall i | 0 <= i < |done|
      ensures StepAt(permitted, more, done, i)
    {
      assert i < |steps| ==> StepAt(permitted, states, steps, i);
    }
  }

  /** A thread that has its guard and the first of its two locks. */
  function HalfWay(c: Caller): Thread {
    Thread(c, [Guard(c.guard), Plan(c.call)[0]], Plan(c.call)[1..])
  }

  /** Takes the next lock that nobody is in the way of. */
  lemma Taken(permitted: set<Caller>, states: seq<State>, steps: seq<Step>, a: nat) returns (more: seq<State>, done: seq<Step>)
    requires IsRun(permitted, states, steps) && a in states[|steps|] && states[|steps|][a].wanted != []
    requires CanMove(states[|steps|], a)
    ensures IsRun(permitted, more, done)
    ensures
      var s := states[|steps|];
      more[|done|] == s[a := Thread(s[a].caller, s[a].held + [s[a].wanted[0]], s[a].wanted[1..])]
  {
    more, done := Longer(permitted, states, steps, Acquire(a));
  }

  /** Nobody is in the way of the guard or of what the call takes first. */
  ghost predicate Open(s: State, c: Caller) {
    forall b :: b in s ==> !Blocks(s[b], Guard(c.guard)) && !Blocks(s[b], Plan(c.call)[0])
  }

  lemma EnteredRun(permitted: set<Caller>, states: seq<State>, steps: seq<Step>, a: nat, c: Caller)
    returns (more: seq<State>, done: seq<Step>)
    requires IsRun(permitted, states, steps) && a !in states[|steps|] && c in permitted && Open(states[|steps|], c)
    ensures IsRun(permitted, more, done) && more[|done|] == states[|steps|][a := HalfWay(c)]
  {
    more, done := Longer(permitted, states, steps, Begin(a, c));
    more, done := Taken(permitted, more, done, a);
    assert [] + [Requests(c)[0]] == [Guard(c.guard)] && Requests(c)[1..] == Plan(c.call);
    assert more[|done|] == states[|steps|][a := Thread(c, [Guard(c.guard)], Plan(c.call))];
    more, done := Taken(permitted, more, done, a);
    assert [Guard(c.guard)] + [Plan(c.call)[0]] == HalfWay(c).held;
  }

  lemma HalfWaysMeet(c: Caller, d: Caller)
    requires Mixed(c, d)
    ensures Deadlocked(map[0 := HalfWay(c), 1 := HalfWay(d)], 0, 1)
    ensures Open(map[0 := HalfWay(c)], d)
  {
    assert HalfWay(c).held[1] == Request(Index, Exclusive);
    assert HalfWay(d).held[1] == Plan(d.call)[0];
  }

  lemma DeadlockedRun(permitted: set<Caller>, c: Caller, d: Caller) returns (states: seq<State>, steps: seq<Step>)
    requires c in permitted && d in permitted && Mixed(c, d)
    ensures IsRun(permitted, states, steps) && states[|steps|] == map[0 := HalfWay(c), 1 := HalfWay(d)]
  {
    states, steps := EnteredRun(permitted, [map[]], [], 0, c);
    HalfWaysMeet(c, d);
    states, steps := EnteredRun(permitted, states, steps, 1, d);
  }

  /** In every reachable state with a call under way, some call can go on. */
  ghost predicate Lively(permitted: set<Caller>) {
    forall states, steps, a ::
      IsRun(permitted, states, steps) && a in states[|steps|] ==> exists b :: b in states[|steps|] && CanMove(states[|steps|], b)
  }

  /**
   Calls can stop one another for good exactly if a worker is deleted, and a call takes
   the topics first, both under shared guards.
   */
  lemma LivelyExactlyUnlessOrdersMix(permitted: set<Caller>)
    ensures Lively(permitted) <==> !Mixes(permitted)
  {
    if Mixes(permitted) {
      var c, d :| c in permitted && d in permitted && Mixed(c, d);
      var states, steps := DeadlockedRun(permitted, c, d);
      HalfWaysMeet(c, d);
      var s := states[|steps|];
      assert 0 in s && !CanMove(s, 0) && !CanMove(s, 1);
    } else {
      forall states, steps, a | IsRun(permitted, states, steps) && a in states[|steps|]
        ensures exists b :: b in states[|steps|] && CanMove(states[|steps|], b)
      {
        RunInv(permitted, states, steps, |steps|);
        SomeoneMoves(permitted, states[|steps|], a);
      }
    }
  }

  // ---- What the calls take ---------------------------------------------------------

  function Locks(call: Call): set<Lock> {
    match call
    case UseTopics(_) => {Topics}
    case UseIndex(_) => {Index}
    case PickIdle => {Idle, Index}
    case _ => {Topics, Index}
  }

  predicate Writes(call: Call, lock: Lock) {
    match call
    case UseTopics(mode) => mode.Exclusive?
    case UseIndex(mode) => mode.Exclusive?
    case PickIdle => lock == Idle
    case GetWorkers => false
    case _ => true
  }

  /** A call takes each lock it needs once, exclusively if it writes under it. */
  lemma PlansTakeWhatCallsNeed(call: Call, lock: Lock)
    ensures lock in Locks(call) <==>
              Request(lock, if Writes(call, lock) then Exclusive else Shared) in Plan(call)
    ensures |Plan(call)| == |Locks(call)|
  {
    assert Plan(call)[0] in Plan(call) && Plan(call)[|Plan(call)| - 1] in Plan(call);
  }

  /** A call that meets nobody takes its locks in turn, ends, and leaves everything as it found it. */
  lemma {:induction false} LoneCallRunsThrough(permitted: set<Caller>, states: seq<State>, steps: seq<Step>, a: nat)
    returns (more: seq<State>, done: seq<Step>)
    requires IsRun(permitted, states, steps) && states[|steps|].Keys == {a}
    ensures IsRun(permitted, more, done) && |done| == |steps| + |states[|steps|][a].wanted| + 1
    ensures more[|done|] == map[]
    decreases |states[|steps|][a].wanted|
  {
    var s := states[|steps|];
    if s[a].wanted == [] {
      more, done := Longer(permitted, states, steps, End(a));
    } else {
      more, done := Longer(permitted, states, steps, Acquire(a));
      more, done := LoneCallRunsThrough(permitted, more, done, a);
    }
  }
}

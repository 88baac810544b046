/**
 The Redis delay store under concurrency. A record lives in a payload hash and a
 score index; every Redis command is one step, and any number of callers
 interleave theirs. Only `schedule` writes both parts in one command.
 */
module DelayRace {
  import opened Messages
  import MapSum
  import DelayStore

  type Record = DelayStore.Record

  /** A caller between two of its commands. */
  datatype Caller =
    | Minted(rec: Record)                                                      // schedule: INCR done
    | Scanned(due: seq<string>, now: int)                                      // fetch_ready: ZRANGEBYSCORE done
    | Claimed(id: string, rest: seq<string>, now: int)                         // fetch_ready: ZREM returned 1
    | Got(id: string, rest: seq<string>, now: int, bytes: Option<Record>)      // fetch_ready: HGET done
    | Unindexed(id: string)                                                    // remove_scheduled: ZREM done

  /** A delivered record, with the record last scheduled under its id at that moment. */
  datatype Delivery = Delivery(caller: string, now: int, rec: Record, latest: Option<Record>)

  /**
   The store and its callers; the last six fields are history. `crossed` holds the
   ids of which a schedule overtook a deletion, `outrun` those of which a schedule
   overtook a fetch, `rash` those that were removed before they were ever scheduled.
   */
  datatype State = State(
    index: map<string, int>,
    payload: map<string, Record>,
    counter: nat,
    callers: map<string, Caller>,
    scheduled: multiset<string>,
    latest: map<string, Record>,
    delivered: seq<Delivery>,
    crossed: set<string>,
    outrun: set<string>,
    rash: set<string>)

  datatype Step =
    | Mint(c: string, r: Record)
    | Commit(c: string)
    | Scan(c: string, now: int, due: seq<string>)
    | TryClaim(c: string)
    | Get(c: string)
    | Delete(c: string)
    | RemoveIndex(c: string, id: string)
    | RemovePayload(c: string)
    | Leave(c: string)

  predicate MidDelete(p: Caller, id: string) {
    (p.Claimed? && p.id == id) || (p.Got? && p.id == id) || (p.Unindexed? && p.id == id)
  }

  /** Some caller has taken the id out of the index and has yet to delete its payload. */
  ghost predicate BeingDeleted(s: State, id: string) {
    exists c :: c in s.callers && MidDelete(s.callers[c], id)
  }

  /**
   The caller will go on to deliver the wrong thing if `rec` is scheduled now: `rec`
   itself although it is not due at the caller's clock, or an older record it holds.
   */
  predicate Overtakes(rec: Record, p: Caller) {
    var id := rec.message.id;
    var late := (now: int) => DelayStore.Score(rec.message) > now;
    match p
    case Scanned(due, now) => id in due && late(now)
    case Claimed(k, rest, now) => (id == k || id in rest) && late(now)
    case Got(k, rest, now, bytes) => (id == k && bytes.Some? && bytes.value != rec) || (id in rest && late(now))
    case _ => false
  }

  ghost predicate OvertakesSome(s: State, rec: Record) {
    exists f :: f in s.callers && Overtakes(rec, s.callers[f])
  }

  ghost predicate Enabled(s: State, step: Step) {
    match step
    case Mint(c, _) => c !in s.callers
    case Commit(c) => c in s.callers && s.callers[c].Minted?
    case Scan(c, now, due) => c !in s.callers && IsDue(s.index, now, due)
    case TryClaim(c) => c in s.callers && s.callers[c].Scanned? && s.callers[c].due != []
    case Get(c) => c in s.callers && s.callers[c].Claimed?
    case Delete(c) => c in s.callers && s.callers[c].Got?
    case RemoveIndex(c, _) => c !in s.callers
    case RemovePayload(c) => c in s.callers && s.callers[c].Unindexed?
    case Leave(c) => c in s.callers
  }

  /** What ZRANGEBYSCORE answers: every member whose score has come, once each, in some order. */
  ghost predicate IsDue(index: map<string, int>, now: int, due: seq<string>) {
    (forall id :: id in due <==> id in index && index[id] <= now) && Distinct(due)
  }

  predicate Distinct(ids: seq<string>) {
    forall i, j :: 0 <= i < j < |ids| ==> ids[i] != ids[j]
  }

  /** What one command does to the store, and the phase it leaves its caller in. */
  datatype Effect = Effect(phase: Option<Caller>, index: map<string, int>, payload: map<string, Record>)

  /** `Leave` ends a call after its last command, or is a crash between two of them. */
  ghost function Command(s: State, step: Step): Effect
    requires Enabled(s, step)
  {
    match step
    case Mint(c, r) => Effect(Some(Minted(r.(recordId := s.counter + 1))), s.index, s.payload)
    case Commit(c) =>
      var rec := s.callers[c].rec;
      Effect(None, s.index[rec.message.id := DelayStore.Score(rec.message)], s.payload[rec.message.id := rec])
    case Scan(c, now, due) => Effect(Some(Scanned(due, now)), s.index, s.payload)
    case TryClaim(c) =>
      var p := s.callers[c];
      if p.due[0] in s.index then
        Effect(Some(Claimed(p.due[0], p.due[1..], p.now)), s.index - {p.due[0]}, s.payload)
      else
        Effect(Some(Scanned(p.due[1..], p.now)), s.index, s.payload)
    case Get(c) =>
      var p := s.callers[c];
      var bytes := if p.id in s.payload then Some(s.payload[p.id]) else None;
      Effect(Some(Got(p.id, p.rest, p.now, bytes)), s.index, s.payload)
    case Delete(c) =>
      var p := s.callers[c];
      Effect(Some(Scanned(p.rest, p.now)), s.index, s.payload - {p.id})
    case RemoveIndex(c, id) => Effect(Some(Unindexed(id)), s.index - {id}, s.payload)
    case RemovePayload(c) => Effect(None, s.index, s.payload - {s.callers[c].id})
    case Leave(c) => Effect(None, s.index, s.payload)
  }

  function Put(callers: map<string, Caller>, c: string, phase: Option<Caller>): map<string, Caller> {
    if phase.Some? then callers[c := phase.value] else callers - {c}
  }

  ghost function Next(s: State, step: Step): State
    requires Enabled(s, step)
  {
    var e := Command(s, step);
    State(e.index, e.payload,
          if step.Mint? then s.counter + 1 else s.counter,
          Put(s.callers, step.c, e.phase),
          s.scheduled + Scheduling(s, step),
          if step.Commit? then s.latest[s.callers[step.c].rec.message.id := s.callers[step.c].rec] else s.latest,
          s.delivered + Delivering(s, step),
          s.crossed + Crossing(s, step), s.outrun + Outrunning(s, step), s.rash + Rash(s, step))
  }

  ghost function Crossing(s: State, step: Step): set<string>
    requires Enabled(s, step)
  {
    if step.Commit? && BeingDeleted(s, s.callers[step.c].rec.message.id) then {s.callers[step.c].rec.message.id} else {}
  }

  ghost function Outrunning(s: State, step: Step): set<string>
    requires Enabled(s, step)
  {
    if step.Commit? && OvertakesSome(s, s.callers[step.c].rec) then {s.callers[step.c].rec.message.id} else {}
  }

  function Rash(s: State, step: Step): set<string> {
    if step.RemoveIndex? && step.id !in s.scheduled then {step.id} else {}
  }

  function LatestOf(s: State, id: string): Option<Record> {
    if id in s.latest then Some(s.latest[id]) else None
  }

  function Scheduling(s: State, step: Step): multiset<string> {
    if step.Commit? && step.c in s.callers && s.callers[step.c].Minted? then multiset{s.callers[step.c].rec.message.id}
    else multiset{}
  }

  /** `fetch_ready` keeps a record it found once it has deleted the payload. */
  function Delivering(s: State, step: Step): seq<Delivery> {
    if step.Delete? && step.c in s.callers && s.callers[step.c].Got? && s.callers[step.c].bytes.Some? then
      var rec := s.callers[step.c].bytes.value;
      [Delivery(step.c, s.callers[step.c].now, rec, LatestOf(s, rec.message.id))]
    else []
  }

  predicate Initial(s: State) {
    && s.index == map[] && s.payload == map[] && s.counter == 0 && s.callers == map[]
    && s.scheduled == multiset{} && s.latest == map[] && s.delivered == []
    && s.crossed == {} && s.outrun == {} && s.rash == {}
  }

  ghost predicate StepAt(states: seq<State>, steps: seq<Step>, i: nat)
    requires |states| == |steps| + 1 && i < |steps|
  {
    Enabled(states[i], steps[i]) && states[i + 1] == Next(states[i], steps[i])
  }

  /** A run from an empty store, in any interleaving of any callers. */
  ghost predicate IsRun(states: seq<State>, steps: seq<Step>) {
    && |states| == |steps| + 1
    && Initial(states[0])
    && forall i :: 0 <= i < |steps| ==> StepAt(states, steps, i)
  }

  // ---- Deliveries never exceed schedules -----------------------------------

  function ClaimOf(c: string, p: Caller): multiset<string> {
    match p
    case Claimed(id, _, _) => multiset{id}
    case Got(id, _, _, _) => multiset{id}
    case _ => multiset{}
  }

  function DeliveredIds(log: seq<Delivery>): multiset<string> {
    if log == [] then multiset{}
    else DeliveredIds(log[..|log| - 1]) + multiset{log[|log| - 1].rec.message.id}
  }

  ghost function Claims(callers: map<string, Caller>): multiset<string> {
    MapSum.Sum(callers, ClaimOf)
  }

  function ClaimAt(callers: map<string, Caller>, c: string): multiset<string> {
    if c in callers then ClaimOf(c, callers[c]) else multiset{}
  }

  function One(b: bool): nat {
    if b then 1 else 0
  }

  /** Every delivery, every claim under way and the index entry stand for a schedule of their own. */
  ghost predicate AccountedFor(s: State, id: string) {
    DeliveredIds(s.delivered)[id] + Claims(s.callers)[id] + One(id in s.index) <= s.scheduled[id]
  }

  predicate FiledCaller(p: Caller) {
    match p
    case Scanned(due, _) => Distinct(due)
    case Claimed(id, rest, _) => id !in rest && Distinct(rest)
    case Got(id, rest, _, bytes) => id !in rest && Distinct(rest) && (bytes.Some? ==> bytes.value.message.id == id)
    case _ => true
  }

  /** Payloads and fetched records are filed under their own id, and lists name an id once. */
  ghost predicate FiledUnderIds(s: State) {
    && (forall id :: id in s.payload ==> s.payload[id].message.id == id)
    && (forall c :: c in s.callers ==> FiledCaller(s.callers[c]))
  }

  lemma DeliveredAppend(log: seq<Delivery>, d: Delivery)
    ensures DeliveredIds(log + [d]) == DeliveredIds(log) + multiset{d.rec.message.id}
  {
  }

  lemma ClaimSplit(callers: map<string, Caller>, c: string, id: string)
    ensures Claims(callers)[id] == Claims(callers - {c})[id] + ClaimAt(callers, c)[id]
  {
    if c in callers {
      MapSum.Split(callers, ClaimOf, c);
    } else {
      assert callers - {c} == callers;
    }
  }

  lemma PutElsewhere(callers: map<string, Caller>, c: string, phase: Option<Caller>)
    ensures Put(callers, c, phase) - {c} == callers - {c}
    ensures ClaimAt(Put(callers, c, phase), c) == if phase.Some? then ClaimOf(c, phase.value) else multiset{}
  {
  }

  lemma ClaimsPut(callers: map<string, Caller>, c: string, phase: Option<Caller>, id: string)
    ensures Claims(Put(callers, c, phase))[id] + ClaimAt(callers, c)[id]
         == Claims(callers)[id] + ClaimAt(Put(callers, c, phase), c)[id]
  {
    PutElsewhere(callers, c, phase);
    ClaimSplit(callers, c, id);
    ClaimSplit(Put(callers, c, phase), c, id);
  }

  lemma DeliveringCount(s: State, step: Step, id: string)
    ensures DeliveredIds(s.delivered + Delivering(s, step))[id]
         == DeliveredIds(s.delivered)[id]
          + One(Delivering(s, step) != [] && Delivering(s, step)[0].rec.message.id == id)
  {
    if Delivering(s, step) != [] {
      DeliveredAppend(s.delivered, Delivering(s, step)[0]);
    } else {
      assert s.delivered + [] == s.delivered;
    }
  }

  /** What a command gives: a delivery, a claim, an index entry. */
  ghost function Given(s: State, step: Step, id: string): nat
    requires Enabled(s, step)
  {
    One(Delivering(s, step) != [] && Delivering(s, step)[0].rec.message.id == id)
      + ClaimAt(Next(s, step).callers, step.c)[id] + One(id in Next(s, step).index)
  }

  /** What it takes for them: a schedule, a claim, an index entry. */
  ghost function Taken(s: State, step: Step, id: string): nat {
    Scheduling(s, step)[id] + ClaimAt(s.callers, step.c)[id] + One(id in s.index)
  }

  lemma FetchBalance(s: State, step: Step, id: string)
    requires Enabled(s, step) && (step.TryClaim? || step.Get? || step.Delete?)
    requires FiledCaller(s.callers[step.c])
    ensures Given(s, step, id) <= Taken(s, step, id)
  {
  }

  lemma RemovalBalance(s: State, step: Step, id: string)
    requires Enabled(s, step) && (step.RemoveIndex? || step.RemovePayload? || step.Leave?)
    ensures Given(s, step, id) <= Taken(s, step, id)
  {
    PutElsewhere(s.callers, step.c, Command(s, step).phase);
  }

  /** A command gives no more than it takes: a claim costs the index entry, a delivery costs the claim. */
  lemma Balance(s: State, step: Step, id: string)
    requires Enabled(s, step)
    requires step.c in s.callers ==> FiledCaller(s.callers[step.c])
    ensures Given(s, step, id) <= Taken(s, step, id)
  {
    if step.TryClaim? || step.Get? || step.Delete? {
      FetchBalance(s, step, id);
    } else if step.RemoveIndex? || step.RemovePayload? || step.Leave? {
      RemovalBalance(s, step, id);
    } else {
      PutElsewhere(s.callers, step.c, Command(s, step).phase);
    }
  }

  lemma StepKeepsAccount(s: State, step: Step, id: string)
    requires AccountedFor(s, id) && Enabled(s, step)
    requires step.c in s.callers ==> FiledCaller(s.callers[step.c])
    ensures AccountedFor(Next(s, step), id)
  {
    ClaimsPut(s.callers, step.c, Command(s, step).phase, id);
    DeliveringCount(s, step, id);
    Balance(s, step, id);
  }

  lemma StepKeepsFiled(s: State, step: Step)
    requires FiledUnderIds(s) && Enabled(s, step)
    ensures FiledUnderIds(Next(s, step))
  {
  }

  lemma {:induction false} RunIsFiled(states: seq<State>, steps: seq<Step>, n: nat)
    requires IsRun(states, steps) && n < |states|
    ensures FiledUnderIds(states[n])
  {
    if n > 0 {
      RunIsFiled(states, steps, n - 1);
      assert StepAt(states, steps, n - 1);
      StepKeepsFiled(states[n - 1], steps[n - 1]);
    }
  }

  lemma {:induction false} RunAccounts(states: seq<State>, steps: seq<Step>, n: nat, id: string)
    requires IsRun(states, steps) && n < |states|
    ensures AccountedFor(states[n], id)
  {
    if n > 0 {
      RunAccounts(states, steps, n - 1, id);
      RunIsFiled(states, steps, n - 1);
      assert StepAt(states, steps, n - 1);
      StepKeepsAccount(states[n - 1], steps[n - 1], id);
    }
  }

  /** Whatever the interleaving, a message is delivered no more often than it was scheduled. */
  lemma DeliveriesNeverExceedSchedules(states: seq<State>, steps: seq<Step>, n: nat, id: string)
    requires IsRun(states, steps) && n < |states|
    ensures DeliveredIds(states[n].delivered)[id] <= states[n].scheduled[id]
  {
    RunAccounts(states, steps, n, id);
  }

  // ---- An index member has its payload unless a schedule overtook a deletion ----

  /** The id's index entry, if it has one, is the one its last schedule wrote, and so is its payload. */
  ghost predicate WholeAt(s: State, id: string) {
    id in s.index ==>
      && !BeingDeleted(s, id)
      && id in s.latest && id in s.payload && s.payload[id] == s.latest[id]
      && s.index[id] == DelayStore.Score(s.latest[id].message)
  }

  lemma StepKeepsWhole(s: State, step: Step, id: string)
    requires Enabled(s, step) && WholeAt(s, id) && id !in Crossing(s, step)
    ensures WholeAt(Next(s, step), id)
  {
  }

  lemma {:induction false} RunIsWhole(states: seq<State>, steps: seq<Step>, n: nat, id: string)
    requires IsRun(states, steps) && n < |states| && id !in states[n].crossed
    ensures WholeAt(states[n], id)
  {
    if n > 0 {
      assert StepAt(states, steps, n - 1);
      RunIsWhole(states, steps, n - 1, id);
      StepKeepsWhole(states[n - 1], steps[n - 1], id);
    }
  }

  /** As long as no schedule of the id has overtaken a deletion of it, its index entry points at its payload. */
  lemma IndexedRecordHasItsPayload(states: seq<State>, steps: seq<Step>, n: nat, id: string)
    requires IsRun(states, steps) && n < |states| && id !in states[n].crossed
    requires id in states[n].index
    ensures id in states[n].payload && id in states[n].latest && states[n].payload[id] == states[n].latest[id]
    ensures states[n].index[id] == DelayStore.Score(states[n].payload[id].message)
  {
    RunIsWhole(states, steps, n, id);
  }

  // ---- Continuing from a state ------------------------------------------------

  /** Where the steps lead from a state, if they can all be taken. */
  ghost function After(s: State, steps: seq<Step>): Option<State> {
    if steps == [] then Some(s)
    else
      match After(s, steps[..|steps| - 1])
      case None => None
      case Some(t) => if Enabled(t, steps[|steps| - 1]) then Some(Next(t, steps[|steps| - 1])) else None
  }

  lemma OneMore(s: State, done: seq<Step>, t: State, step: Step)
    requires After(s, done) == Some(t) && Enabled(t, step)
    ensures After(s, done + [step]) == Some(Next(t, step))
  {
    assert (done + [step])[..|done|] == done;
  }

  /** The steps that finish the deletion caller `d` is in the middle of. */
  function Finish(p: Caller, d: string): seq<Step> {
    match p
    case Claimed(_, _, _) => [Get(d), Delete(d)]
    case Got(_, _, _, _) => [Delete(d)]
    case _ => [RemovePayload(d)]
  }

  lemma AfterFinish(s0: State, done: seq<Step>, s: State, d: string) returns (t: State)
    requires After(s0, done) == Some(s)
    requires d in s.callers && (s.callers[d].Claimed? || s.callers[d].Got? || s.callers[d].Unindexed?)
    ensures After(s0, done + Finish(s.callers[d], d)) == Some(t)
    ensures t.index == s.index && s.callers[d].id !in t.payload
  {
    match s.callers[d]
    case Claimed(_, _, _) =>
      var s1 := Next(s, Get(d));
      OneMore(s0, done, s, Get(d));
      OneMore(s0, done + [Get(d)], s1, Delete(d));
      assert done + [Get(d)] + [Delete(d)] == done + [Get(d), Delete(d)];
      t := Next(s1, Delete(d));
    case Got(_, _, _, _) =>
      OneMore(s0, done, s, Delete(d));
      t := Next(s, Delete(d));
    case Unindexed(_) =>
      OneMore(s0, done, s, RemovePayload(d));
      t := Next(s, RemovePayload(d));
  }

  /**
   The other half: when a schedule overtakes a deletion of its id, the deletion,
   merely by finishing, leaves the id in the index without a payload.
   */
  lemma OvertakenDeletionOrphans(s: State, c: string, d: string) returns (t: State)
    requires c in s.callers && s.callers[c].Minted?
    requires d in s.callers && MidDelete(s.callers[d], s.callers[c].rec.message.id)
    ensures After(s, [Commit(c)] + Finish(s.callers[d], d)) == Some(t)
    ensures s.callers[c].rec.message.id in t.index && s.callers[c].rec.message.id !in t.payload
  {
    OneMore(s, [], s, Commit(c));
    assert [] + [Commit(c)] == [Commit(c)];
    t := AfterFinish(s, [Commit(c)], Next(s, Commit(c)), d);
  }

  // ---- Calls with nothing in between -----------------------------------------------

  /** Two steps in turn. */
  ghost predicate Leads(s: State, a: Step, b: Step, t: State) {
    Enabled(s, a) && Enabled(Next(s, a), b) && t == Next(Next(s, a), b)
  }

  /** A schedule that goes through has the record in hash and index, under its score. */
  lemma UndisturbedScheduleStores(s: State, c: string, r: Record) returns (t: State)
    requires c !in s.callers
    ensures Leads(s, Mint(c, r), Commit(c), t)
    ensures
      var id, rec := r.message.id, r.(recordId := s.counter + 1);
      && t.index == s.index[id := DelayStore.Score(r.message)] && t.payload == s.payload[id := rec]
      && t.counter == s.counter + 1 && t.callers == s.callers && t.delivered == s.delivered
  {
    t := Next(Next(s, Mint(c, r)), Commit(c));
  }

  lemma FirstIsClaimed(s: State, c: string, now: int, due: seq<string>) returns (t: State)
    requires Enabled(s, Scan(c, now, due)) && due != []
    ensures Leads(s, Scan(c, now, due), TryClaim(c), t)
    ensures t.index == s.index - {due[0]} && t.payload == s.payload && t.delivered == s.delivered && t.latest == s.latest
    ensures t.callers == s.callers[c := Claimed(due[0], due[1..], now)]
  {
    assert due[0] in due;
    t := Next(Next(s, Scan(c, now, due)), TryClaim(c));
  }

  lemma ClaimedIsDelivered(s: State, c: string) returns (t: State)
    requires Enabled(s, Get(c)) && s.callers[c].id in s.payload
    ensures Leads(s, Get(c), Delete(c), t)
    ensures
      var p := s.callers[c];
      var rec := s.payload[p.id];
      && t.index == s.index && t.payload == s.payload - {p.id}
      && t.delivered == s.delivered + [Delivery(c, p.now, rec, LatestOf(s, rec.message.id))]
      && t.callers == s.callers[c := Scanned(p.rest, p.now)]
  {
    t := Next(Next(s, Get(c)), Delete(c));
  }

  /** A fetch delivers the first due member that has its payload, and takes it out of hash and index. */
  lemma UndisturbedFetchDelivers(s: State, c: string, now: int, due: seq<string>) returns (mid: State, t: State)
    requires Enabled(s, Scan(c, now, due)) && due != [] && due[0] in s.payload
    ensures Leads(s, Scan(c, now, due), TryClaim(c), mid) && Leads(mid, Get(c), Delete(c), t)
    ensures
      var rec := s.payload[due[0]];
      && t.index == s.index - {due[0]} && t.payload == s.payload - {due[0]}
      && t.delivered == s.delivered + [Delivery(c, now, rec, LatestOf(s, rec.message.id))]
      && t.callers == s.callers[c := Scanned(due[1..], now)]
  {
    mid := FirstIsClaimed(s, c, now, due);
    t := ClaimedIsDelivered(mid, c);
  }

  /** A caller that leaves, at its end or in a crash between two commands, leaves the store as it is. */
  lemma LeavingChangesNothingStored(s: State, c: string)
    requires Enabled(s, Leave(c))
    ensures
      var t := Next(s, Leave(c));
      && t.callers == s.callers - {c} && t.index == s.index && t.payload == s.payload && t.delivered == s.delivered
      && t.latest == s.latest && t.scheduled == s.scheduled
  {
  }

  /** A removal takes the id, and nothing else, out of hash and index, and delivers nothing. */
  lemma UndisturbedRemovalRemoves(s: State, c: string, id: string) returns (t: State)
    requires c !in s.callers
    ensures Leads(s, RemoveIndex(c, id), RemovePayload(c), t)
    ensures t.index == s.index - {id} && t.payload == s.payload - {id} && t.callers == s.callers && t.delivered == s.delivered
  {
    t := Next(Next(s, RemoveIndex(c, id)), RemovePayload(c));
  }

  // ---- Ids scheduled once are never crossed --------------------------------------

  /** An id in the index was scheduled before, and so was one being deleted, unless its removal was rash. */
  ghost predicate KnownAt(s: State, id: string) {
    && (id in s.index ==> id in s.scheduled)
    && (id !in s.rash && BeingDeleted(s, id) ==> id in s.scheduled)
  }

  lemma StepKeepsKnown(s: State, step: Step, id: string)
    requires Enabled(s, step) && KnownAt(s, id)
    ensures KnownAt(Next(s, step), id)
  {
  }

  lemma {:induction false} RunIsKnown(states: seq<State>, steps: seq<Step>, n: nat, id: string)
    requires IsRun(states, steps) && n < |states|
    ensures KnownAt(states[n], id)
  {
    if n > 0 {
      assert StepAt(states, steps, n - 1);
      RunIsKnown(states, steps, n - 1, id);
      StepKeepsKnown(states[n - 1], steps[n - 1], id);
    }
  }

  /** Scheduled once, and not removed before that, an id is never crossed, whatever happens to others. */
  lemma {:induction false} ScheduledOnceIsNotCrossed(states: seq<State>, steps: seq<Step>, n: nat, id: string)
    requires IsRun(states, steps) && n < |states|
    requires states[n].scheduled[id] <= 1 && id !in states[n].rash
    ensures id !in states[n].crossed
  {
    if n > 0 {
      assert StepAt(states, steps, n - 1);
      ScheduledOnceIsNotCrossed(states, steps, n - 1, id);
      RunIsKnown(states, steps, n - 1, id);
    }
  }

  // ---- Deliveries are current and due unless a schedule overtook a fetch --------

  ghost predicate DueIn(latest: map<string, Record>, id: string, now: int) {
    id in latest && DelayStore.Score(latest[id].message) <= now
  }

  /** The caller's list and claim name the id only if its current record is due, and a fetched record is the current one. */
  ghost predicate RightlyDue(p: Caller, id: string, latest: map<string, Record>) {
    match p
    case Minted(_) => true
    case Scanned(due, now) => id in due ==> DueIn(latest, id, now)
    case Claimed(k, rest, now) => id == k || id in rest ==> DueIn(latest, id, now)
    case Got(k, rest, now, bytes) =>
      && (id in rest ==> DueIn(latest, id, now))
      && (id == k && bytes.Some? ==> DueIn(latest, id, now) && bytes.value == latest[id])
    case Unindexed(_) => true
  }

  /** Index and payload are always those of the last schedule, as far as they are there. */
  ghost predicate StoredAt(s: State, id: string) {
    && (id in s.latest <==> id in s.scheduled)
    && (id in s.index ==> id in s.latest && s.index[id] == DelayStore.Score(s.latest[id].message))
    && (id in s.payload ==> id in s.latest && s.payload[id] == s.latest[id])
  }

  /** The record last scheduled at that moment, and due by the caller's clock. */
  predicate Right(d: Delivery) {
    d.latest == Some(d.rec) && DelayStore.Score(d.rec.message) <= d.now
  }

  ghost predicate DeliveredRightly(s: State, id: string) {
    forall k :: 0 <= k < |s.delivered| && s.delivered[k].rec.message.id == id ==> Right(s.delivered[k])
  }

  ghost predicate CurrentAt(s: State, id: string) {
    (forall c :: c in s.callers ==> RightlyDue(s.callers[c], id, s.latest)) && DeliveredRightly(s, id)
  }

  lemma StepKeepsStored(s: State, step: Step, id: string)
    requires Enabled(s, step) && StoredAt(s, id)
    ensures StoredAt(Next(s, step), id)
  {
  }

  lemma {:induction false} RunIsStored(states: seq<State>, steps: seq<Step>, n: nat, id: string)
    requires IsRun(states, steps) && n < |states|
    ensures StoredAt(states[n], id)
  {
    if n > 0 {
      assert StepAt(states, steps, n - 1);
      RunIsStored(states, steps, n - 1, id);
      StepKeepsStored(states[n - 1], steps[n - 1], id);
    }
  }

  lemma CallerStaysRight(s: State, step: Step, id: string, c: string)
    requires Enabled(s, step) && StoredAt(s, id) && id !in Outrunning(s, step)
    requires c in Next(s, step).callers && (c in s.callers ==> RightlyDue(s.callers[c], id, s.latest))
    ensures RightlyDue(Next(s, step).callers[c], id, Next(s, step).latest)
  {
    if step.Commit? && c in s.callers {
      assert s.callers[step.c].rec.message.id == id ==> !Overtakes(s.callers[step.c].rec, s.callers[c]);
    }
  }

  lemma DeliveryIsRight(s: State, step: Step, id: string)
    requires Enabled(s, step) && DeliveredRightly(s, id)
    requires step.c in s.callers ==> FiledCaller(s.callers[step.c]) && RightlyDue(s.callers[step.c], id, s.latest)
    ensures DeliveredRightly(Next(s, step), id)
  {
  }

  lemma StepKeepsCurrent(s: State, step: Step, id: string)
    requires Enabled(s, step) && StoredAt(s, id) && CurrentAt(s, id) && id !in Outrunning(s, step)
    requires step.c in s.callers ==> FiledCaller(s.callers[step.c])
    ensures CurrentAt(Next(s, step), id)
  {
    forall c | c in Next(s, step).callers
      ensures RightlyDue(Next(s, step).callers[c], id, Next(s, step).latest)
    {
      CallerStaysRight(s, step, id, c);
    }
    DeliveryIsRight(s, step, id);
  }

  lemma {:induction false} RunIsCurrent(states: seq<State>, steps: seq<Step>, n: nat, id: string)
    requires IsRun(states, steps) && n < |states| && id !in states[n].outrun
    ensures CurrentAt(states[n], id)
  {
    if n > 0 {
      assert StepAt(states, steps, n - 1);
      RunIsCurrent(states, steps, n - 1, id);
      RunIsStored(states, steps, n - 1, id);
      RunIsFiled(states, steps, n - 1);
      StepKeepsCurrent(states[n - 1], steps[n - 1], id);
    }
  }

  /**
   However often a message is rescheduled: as long as no schedule of its id has
   overtaken a fetch, every delivery of it is the record last scheduled at that
   moment, and is due.
   */
  lemma DeliveriesAreCurrentAndDue(states: seq<State>, steps: seq<Step>, n: nat, k: nat)
    requires IsRun(states, steps) && n < |states| && k < |states[n].delivered|
    requires states[n].delivered[k].rec.message.id !in states[n].outrun
    ensures Right(states[n].delivered[k])
  {
    RunIsCurrent(states, steps, n, states[n].delivered[k].rec.message.id);
  }

  // ---- The other half: an overtaken fetch delivers wrongly ------------------------

  /** The last delivery of a state. */
  ghost predicate JustDelivered(t: State, d: Delivery) {
    t.delivered != [] && t.delivered[|t.delivered| - 1] == d
  }

  /** `t` is as good as `s` for going on to `id`: same clock and list, same record, same history. */
  ghost predicate Spares(s: State, t: State, f: string, due: seq<string>, now: int, id: string) {
    && f in t.callers && t.callers[f] == Scanned(due, now)
    && id in t.index && id in t.payload && id in s.payload && t.payload[id] == s.payload[id]
    && LatestOf(t, id) == LatestOf(s, id)
  }

  ghost predicate Stored(s: State, id: string) {
    id in s.index && id in s.payload && s.payload[id].message.id == id
  }

  /** A caller that has claimed an id goes on to read and deliver what is stored under it. */
  lemma ClaimedGoesOut(s0: State, done: seq<Step>, s: State, f: string) returns (steps: seq<Step>, t: State)
    requires After(s0, done) == Some(s) && f in s.callers && s.callers[f].Claimed?
    requires s.callers[f].id in s.payload && s.payload[s.callers[f].id].message.id == s.callers[f].id
    ensures done <= steps && After(s0, steps) == Some(t)
    ensures JustDelivered(t, Delivery(f, s.callers[f].now, s.payload[s.callers[f].id], LatestOf(s, s.callers[f].id)))
  {
    var s1 := Next(s, Get(f));
    OneMore(s0, done, s, Get(f));
    OneMore(s0, done + [Get(f)], s1, Delete(f));
    steps, t := done + [Get(f)] + [Delete(f)], Next(s1, Delete(f));
  }

  lemma FinishOther(s0: State, done: seq<Step>, s: State, f: string, id: string) returns (steps: seq<Step>, t: State)
    requires After(s0, done) == Some(s) && Stored(s, id)
    requires f in s.callers && s.callers[f].Got? && s.callers[f].id != id
    ensures done <= steps && After(s0, steps) == Some(t) && Spares(s, t, f, s.callers[f].rest, s.callers[f].now, id)
  {
    OneMore(s0, done, s, Delete(f));
    steps, t := done + [Delete(f)], Next(s, Delete(f));
  }

  /** A caller busy with another id finishes it and is back at its list. */
  lemma BackToTheList(s0: State, done: seq<Step>, s: State, f: string, id: string) returns (steps: seq<Step>, t: State)
    requires After(s0, done) == Some(s) && Stored(s, id)
    requires f in s.callers && (s.callers[f].Claimed? || s.callers[f].Got?) && s.callers[f].id != id
    ensures done <= steps && After(s0, steps) == Some(t) && Spares(s, t, f, s.callers[f].rest, s.callers[f].now, id)
  {
    if s.callers[f].Claimed? {
      OneMore(s0, done, s, Get(f));
      steps, t := FinishOther(s0, done + [Get(f)], Next(s, Get(f)), f, id);
    } else {
      steps, t := FinishOther(s0, done, s, f, id);
    }
  }

  /** A caller gets another id off the head of its list, whatever is left of it. */
  lemma SkipHead(s0: State, done: seq<Step>, s: State, f: string, id: string) returns (steps: seq<Step>, t: State)
    requires After(s0, done) == Some(s) && Stored(s, id)
    requires f in s.callers && s.callers[f].Scanned? && s.callers[f].due != [] && s.callers[f].due[0] != id
    ensures done <= steps && After(s0, steps) == Some(t) && Spares(s, t, f, s.callers[f].due[1..], s.callers[f].now, id)
  {
    OneMore(s0, done, s, TryClaim(f));
    var s1 := Next(s, TryClaim(f));
    if s.callers[f].due[0] in s.index {
      steps, t := BackToTheList(s0, done + [TryClaim(f)], s1, f, id);
    } else {
      steps, t := done + [TryClaim(f)], s1;
    }
  }

  /** Wherever the id stands in its list, the caller goes on to deliver what is stored under it. */
  lemma {:induction false} ListedGoesOut(s0: State, done: seq<Step>, s: State, f: string, id: string)
    returns (steps: seq<Step>, t: State)
    requires After(s0, done) == Some(s) && Stored(s, id)
    requires f in s.callers && s.callers[f].Scanned? && id in s.callers[f].due
    ensures done <= steps && After(s0, steps) == Some(t)
    ensures JustDelivered(t, Delivery(f, s.callers[f].now, s.payload[id], LatestOf(s, id)))
    decreases |s.callers[f].due|
  {
    if s.callers[f].due[0] == id {
      OneMore(s0, done, s, TryClaim(f));
      steps, t := ClaimedGoesOut(s0, done + [TryClaim(f)], Next(s, TryClaim(f)), f);
    } else {
      var more, s1 := SkipHead(s0, done, s, f, id);
      steps, t := ListedGoesOut(s0, more, s1, f, id);
    }
  }

  /** The caller names the id in its list or in a claim it has yet to read. */
  predicate Mentions(p: Caller, id: string) {
    (p.Scanned? && id in p.due) || (p.Claimed? && (id == p.id || id in p.rest)) || (p.Got? && id != p.id && id in p.rest)
  }

  lemma MentionedGoesOut(s0: State, done: seq<Step>, s: State, f: string, id: string) returns (steps: seq<Step>, t: State)
    requires After(s0, done) == Some(s) && Stored(s, id) && f in s.callers && Mentions(s.callers[f], id)
    ensures done <= steps && After(s0, steps) == Some(t)
    ensures JustDelivered(t, Delivery(f, s.callers[f].now, s.payload[id], LatestOf(s, id)))
  {
    if s.callers[f].Scanned? {
      steps, t := ListedGoesOut(s0, done, s, f, id);
    } else if s.callers[f].id == id {
      steps, t := ClaimedGoesOut(s0, done, s, f);
    } else {
      var more, s1 := BackToTheList(s0, done, s, f, id);
      steps, t := ListedGoesOut(s0, more, s1, f, id);
    }
  }

  /**
   When a schedule overtakes a fetch, that fetch, merely by going on, delivers
   something early or out of date: the condition of `DeliveriesAreCurrentAndDue` is
   needed at every caller and at every position of its list.
   */
  lemma OvertakenFetchDeliversWrongly(s: State, c: string, f: string) returns (steps: seq<Step>, t: State, d: Delivery)
    requires c in s.callers && s.callers[c].Minted? && f in s.callers && FiledCaller(s.callers[f])
    requires Overtakes(s.callers[c].rec, s.callers[f])
    ensures [Commit(c)] <= steps && After(s, steps) == Some(t) && JustDelivered(t, d)
    ensures d.caller == f && d.rec.message.id == s.callers[c].rec.message.id && !Right(d)
  {
    var rec := s.callers[c].rec;
    OneMore(s, [], s, Commit(c));
    assert [] + [Commit(c)] == [Commit(c)];
    var s1 := Next(s, Commit(c));
    assert s1.callers[f] == s.callers[f];
    if s1.callers[f].Got? && s1.callers[f].id == rec.message.id {
      OneMore(s, [Commit(c)], s1, Delete(f));
      steps, t := [Commit(c)] + [Delete(f)], Next(s1, Delete(f));
      d := Delivery(f, s1.callers[f].now, s1.callers[f].bytes.value, Some(rec));
    } else {
      steps, t := MentionedGoesOut(s, [Commit(c)], s1, f, rec.message.id);
      d := Delivery(f, s1.callers[f].now, rec, Some(rec));
    }
  }

  const NOTHING: State := State(map[], map[], 0, map[], multiset{}, map[], [], {}, {}, {})

  lemma OneStepLonger(states: seq<State>, steps: seq<Step>, step: Step, t: State)
    requires IsRun(states, steps) && Enabled(states[|steps|], step) && t == Next(states[|steps|], step)
    ensures IsRun(states + [t], steps + [step])
  {
    var longer := states + [t];
    forall i | 0 <= i < |steps|
      ensures StepAt(longer, steps + [step], i)
    {
      assert StepAt(states, steps, i);
      assert longer[i] == states[i] && longer[i + 1] == states[i + 1];
    }
    assert StepAt(longer, steps + [step], |steps|);
  }

  lemma {:induction false} AfterIsARun(steps: seq<Step>, t: State) returns (states: seq<State>)
    requires After(NOTHING, steps) == Some(t)
    ensures IsRun(states, steps) && states[|steps|] == t
    decreases |steps|
  {
    if steps == [] {
      states := [t];
    } else {
      var n := |steps| - 1;
      var front := AfterIsARun(steps[..n], After(NOTHING, steps[..n]).value);
      OneStepLonger(front, steps[..n], steps[n], t);
      assert steps[..n] + [steps[n]] == steps;
      states := front + [t];
    }
  }

  lemma ScheduleOnce(r: Record) returns (t: State)
    ensures After(NOTHING, [Mint("a", r), Commit("a")]) == Some(t)
    ensures t.callers == map[] && t.counter == 1 && t.index == map[r.message.id := DelayStore.Score(r.message)]
  {
    var s1 := Next(NOTHING, Mint("a", r));
    OneMore(NOTHING, [], NOTHING, Mint("a", r));
    OneMore(NOTHING, [] + [Mint("a", r)], s1, Commit("a"));
    assert [] + [Mint("a", r)] + [Commit("a")] == [Mint("a", r), Commit("a")];
    t := Next(s1, Commit("a"));
  }

  lemma ScanAndMint(done: seq<Step>, s: State, id: string, r: Record, now: int) returns (t: State)
    requires After(NOTHING, done) == Some(s)
    requires s.callers == map[] && id in s.index && s.index.Keys == {id} && s.index[id] <= now
    ensures After(NOTHING, done + [Scan("f", now, [id])] + [Mint("b", r)]) == Some(t)
    ensures t.index == s.index
    ensures t.callers == map["f" := Scanned([id], now), "b" := Minted(r.(recordId := s.counter + 1))]
  {
    assert IsDue(s.index, now, [id]);
    var s1 := Next(s, Scan("f", now, [id]));
    OneMore(NOTHING, done, s, Scan("f", now, [id]));
    OneMore(NOTHING, done + [Scan("f", now, [id])], s1, Mint("b", r));
    t := Next(s1, Mint("b", r));
  }

  /** Such states are reached: a rescheduling caller, with a fetcher that has the id in its list, or in its claim. */
  lemma OvertakingIsReachable(r1: Record, r2: Record, now: int, claimed: bool) returns (states: seq<State>, steps: seq<Step>)
    requires r1.message.id == r2.message.id
    requires DelayStore.Score(r1.message) <= now < DelayStore.Score(r2.message)
    ensures IsRun(states, steps)
    ensures
      var s := states[|steps|];
      && "b" in s.callers && s.callers["b"] == Minted(r2.(recordId := 2))
      && "f" in s.callers && Overtakes(r2.(recordId := 2), s.callers["f"])
      && (claimed ==> MidDelete(s.callers["f"], r2.message.id)) && (!claimed ==> s.callers["f"].Scanned?)
  {
    var s := ScheduleOnce(r1);
    steps := [Mint("a", r1), Commit("a")];
    s := ScanAndMint(steps, s, r1.message.id, r2, now);
    steps := steps + [Scan("f", now, [r1.message.id])] + [Mint("b", r2)];
    if claimed {
      OneMore(NOTHING, steps, s, TryClaim("f"));
      s := Next(s, TryClaim("f"));
      steps := steps + [TryClaim("f")];
    }
    states := AfterIsARun(steps, s);
  }

  // ---- Ids scheduled once ----------------------------------------------------------

  lemma {:induction false} ScheduledOnceIsNotOutrun(states: seq<State>, steps: seq<Step>, n: nat, id: string)
    requires IsRun(states, steps) && n < |states| && states[n].scheduled[id] <= 1
    ensures id !in states[n].outrun
  {
    if n > 0 {
      assert StepAt(states, steps, n - 1);
      ScheduledOnceIsNotOutrun(states, steps, n - 1, id);
      RunIsCurrent(states, steps, n - 1, id);
      RunIsStored(states, steps, n - 1, id);
      FirstScheduleOutrunsNobody(states[n - 1], steps[n - 1], id);
    }
  }

  lemma FirstScheduleOutrunsNobody(s: State, step: Step, id: string)
    requires Enabled(s, step) && StoredAt(s, id) && CurrentAt(s, id) && Next(s, step).scheduled[id] <= 1
    ensures id !in Outrunning(s, step)
  {
    if step.Commit? && s.callers[step.c].rec.message.id == id {
      forall f | f in s.callers
        ensures !Overtakes(s.callers[step.c].rec, s.callers[f])
      {
        assert RightlyDue(s.callers[f], id, s.latest);
      }
    }
  }

  /** What was current at a delivery is what the one schedule wrote. */
  ghost predicate OnceLatest(s: State, id: string) {
    forall k :: 0 <= k < |s.delivered| && s.delivered[k].rec.message.id == id && s.delivered[k].latest.Some? ==>
      id in s.scheduled && (s.scheduled[id] <= 1 ==> s.delivered[k].latest == LatestOf(s, id))
  }

  lemma StepKeepsOnceLatest(s: State, step: Step, id: string)
    requires Enabled(s, step) && StoredAt(s, id) && OnceLatest(s, id)
    ensures OnceLatest(Next(s, step), id)
  {
  }

  lemma {:induction false} RunIsOnceLatest(states: seq<State>, steps: seq<Step>, n: nat, id: string)
    requires IsRun(states, steps) && n < |states|
    ensures OnceLatest(states[n], id)
  {
    if n > 0 {
      assert StepAt(states, steps, n - 1);
      RunIsOnceLatest(states, steps, n - 1, id);
      RunIsStored(states, steps, n - 1, id);
      StepKeepsOnceLatest(states[n - 1], steps[n - 1], id);
    }
  }

  lemma {:induction false} TwiceDelivered(log: seq<Delivery>, j: nat, k: nat, id: string)
    requires j < k < |log| && log[j].rec.message.id == id && log[k].rec.message.id == id
    ensures DeliveredIds(log)[id] >= 2
  {
    var front := log[..|log| - 1];
    if k < |log| - 1 {
      TwiceDelivered(front, j, k, id);
    } else {
      OnceDelivered(front, j, id);
    }
  }

  lemma {:induction false} OnceDelivered(log: seq<Delivery>, j: nat, id: string)
    requires j < |log| && log[j].rec.message.id == id
    ensures DeliveredIds(log)[id] >= 1
  {
    if j < |log| - 1 {
      OnceDelivered(log[..|log| - 1], j, id);
    }
  }

  /**
   A message scheduled once is delivered at most once, by one caller, as it was
   scheduled, and never before its time, whatever happens to other messages.
   */
  lemma ScheduledOnceIsDeliveredOnceAndDue(states: seq<State>, steps: seq<Step>, n: nat, k: nat)
    requires IsRun(states, steps) && n < |states| && k < |states[n].delivered|
    requires states[n].scheduled[states[n].delivered[k].rec.message.id] <= 1
    ensures var d := states[n].delivered[k];
            && d.rec.message.id in states[n].latest && d.rec == states[n].latest[d.rec.message.id]
            && DelayStore.Score(d.rec.message) <= d.now
    ensures forall j :: 0 <= j < |states[n].delivered| && j != k ==>
              states[n].delivered[j].rec.message.id != states[n].delivered[k].rec.message.id
  {
    var s := states[n];
    var id := s.delivered[k].rec.message.id;
    ScheduledOnceIsNotOutrun(states, steps, n, id);
    DeliveriesAreCurrentAndDue(states, steps, n, k);
    RunIsOnceLatest(states, steps, n, id);
    DeliveriesNeverExceedSchedules(states, steps, n, id);
    forall j | 0 <= j < |s.delivered| && j != k
      ensures s.delivered[j].rec.message.id != id
    {
      if s.delivered[j].rec.message.id == id {
        TwiceDelivered(s.delivered, if j < k then j else k, if j < k then k else j, id);
      }
    }
  }
}

/**
 The worker registry: a map edited under a write lock, then saved whole under a
 read guard by every call that edited it.
 */
module Registry {
  import opened Messages

  datatype WorkerInfo = WorkerInfo(workerName: string, topic: string, lastHeartbeat: Time)

  type Table = map<string, WorkerInfo>

  /** What a call does to the map; times are the clock readings the call made. */
  datatype Edit =
    | Register(info: WorkerInfo)
    | Unregister(id: string)
    | Heartbeat(id: string, at: Time)
    | Cleanup(now: Time, timeout: nat)

  /** A heartbeat later than the clock reading counts as infinitely old. */
  predicate Stale(info: WorkerInfo, now: Time, timeout: nat) {
    now < info.lastHeartbeat || now - info.lastHeartbeat > timeout
  }

  function Edited(t: Table, e: Edit): Table {
    match e
    case Register(info) => t[info.workerName := info]
    case Unregister(id) => t - {id}
    case Heartbeat(id, at) => if id in t then t[id := t[id].(lastHeartbeat := at)] else t
    case Cleanup(now, timeout) => map id | id in t && !Stale(t[id], now, timeout) :: t[id]
  }

  /** Workers are filed under their own name, which every edit keeps. */
  ghost predicate Keyed(t: Table) {
    forall id :: id in t ==> t[id].workerName == id
  }

  lemma EditsKeepKeyed(t: Table, e: Edit)
    requires Keyed(t)
    ensures Keyed(Edited(t, e))
  {
  }

  /** The edit takes the worker off the registry. */
  predicate Removes(t: Table, e: Edit, id: string) {
    match e
    case Unregister(gone) => gone == id
    case Cleanup(now, timeout) => id in t && Stale(t[id], now, timeout)
    case _ => false
  }

  /**
   After an edit a worker is registered exactly if the edit registers it, or it was and
   the edit does not remove it; and only its own registration or heartbeat changes it.
   */
  lemma EditIsAboutItsWorker(t: Table, e: Edit, id: string)
    ensures id in Edited(t, e) <==> (e.Register? && e.info.workerName == id) || (id in t && !Removes(t, e, id))
    ensures e.Register? && e.info.workerName == id ==> Edited(t, e)[id] == e.info
    ensures id in Edited(t, e) && !(e.Register? && e.info.workerName == id) ==>
              Edited(t, e)[id] == if e.Heartbeat? && e.id == id then t[id].(lastHeartbeat := e.at) else t[id]
  {
  }

  /** The registry after a run of edits. */
  function AfterEdits(t: Table, edits: seq<Edit>): Table {
    if edits == [] then t else Edited(AfterEdits(t, edits[..|edits| - 1]), edits[|edits| - 1])
  }

  /** The `j`-th edit registers the worker, and none after it removes it. */
  ghost predicate StandsSince(t: Table, edits: seq<Edit>, j: nat, id: string) {
    && j < |edits| && edits[j].Register? && edits[j].info.workerName == id
    && KeptSince(t, edits, j + 1, id)
  }

  ghost predicate KeptSince(t: Table, edits: seq<Edit>, j: nat, id: string) {
    forall k :: j <= k < |edits| ==> !Removes(AfterEdits(t, edits[..k]), edits[k], id)
  }

  /** The worker was registered to begin with or came to be, and was not removed since. */
  ghost predicate Standing(t: Table, edits: seq<Edit>, id: string) {
    (id in t && KeptSince(t, edits, 0, id)) || exists j :: StandsSince(t, edits, j, id)
  }

  lemma KeptGrows(t: Table, front: seq<Edit>, last: Edit, j: nat, id: string)
    requires j <= |front|
    ensures KeptSince(t, front + [last], j, id) <==> KeptSince(t, front, j, id) && !Removes(AfterEdits(t, front), last, id)
  {
    var edits := front + [last];
    assert edits[..|front|] == front && edits[|front|] == last;
    assert forall k :: 0 <= k < |front| ==> edits[..k] == front[..k] && edits[k] == front[k];
  }

  lemma StandsLonger(t: Table, front: seq<Edit>, last: Edit, j: nat, id: string)
    requires j < |front|
    ensures StandsSince(t, front + [last], j, id) <==> StandsSince(t, front, j, id) && !Removes(AfterEdits(t, front), last, id)
  {
    KeptGrows(t, front, last, j + 1, id);
    assert (front + [last])[j] == front[j];
  }

  lemma StandingGrows(t: Table, front: seq<Edit>, last: Edit, id: string)
    ensures Standing(t, front + [last], id) <==>
              || (last.Register? && last.info.workerName == id)
              || (Standing(t, front, id) && !Removes(AfterEdits(t, front), last, id))
  {
    KeptGrows(t, front, last, 0, id);
    assert (front + [last])[|front|] == last;
    assert last.Register? && last.info.workerName == id ==> StandsSince(t, front + [last], |front|, id);
    forall j: nat | j < |front|
      ensures StandsSince(t, front + [last], j, id) <==>
                StandsSince(t, front, j, id) && !Removes(AfterEdits(t, front), last, id)
    {
      StandsLonger(t, front, last, j, id);
    }
  }

  /** After any edits a worker is registered exactly if it was, or came to be, and was not removed since. */
  lemma {:induction false} RegisteredExactlyIf(t: Table, edits: seq<Edit>, id: string)
    ensures id in AfterEdits(t, edits) <==> Standing(t, edits, id)
  {
    if edits != [] {
      var front, last := edits[..|edits| - 1], edits[|edits| - 1];
      RegisteredExactlyIf(t, front, id);
      EditIsAboutItsWorker(AfterEdits(t, front), last, id);
      StandingGrows(t, front, last, id);
      assert front + [last] == edits;
    }
  }

  // ---- The persisted registry -----------------------------------------------

  /** A call between its edit and its return. */
  datatype Phase =
    | Unsaved                    // edited, write lock dropped
    | Guarded(snapshot: Table)   // read guard held, map cloned for the log

  /** `behind` is history: a call has failed since the last save that went through. */
  datatype State = State(table: Table, persisted: Table, callers: map<string, Phase>, behind: bool)

  datatype Step =
    | DoEdit(c: string, e: Edit)
    | Guard(c: string)
    | Save(c: string)
    | Fail(c: string)
    | Restart

  ghost predicate Guards(s: State) {
    exists c :: c in s.callers && s.callers[c].Guarded?
  }

  /** With `locked`, the read guard keeps edits out until the save is over. */
  ghost predicate Enabled(s: State, step: Step, locked: bool) {
    match step
    case DoEdit(c, _) => c !in s.callers && (locked ==> !Guards(s))
    case Guard(c) => c in s.callers && s.callers[c].Unsaved?
    case Save(c) => c in s.callers && s.callers[c].Guarded?
    case Fail(c) => c in s.callers
    case Restart => true
  }

  /** A call that fails or is dropped releases its guard; a restart drops every call and loads what was saved. */
  function Next(s: State, step: Step): State {
    match step
    case DoEdit(c, e) => s.(table := Edited(s.table, e), callers := s.callers[c := Unsaved])
    case Guard(c) => s.(callers := s.callers[c := Guarded(s.table)])
    case Save(c) =>
      if c in s.callers && s.callers[c].Guarded? then
        s.(persisted := s.callers[c].snapshot, callers := s.callers - {c}, behind := false)
      else s
    case Fail(c) => s.(callers := s.callers - {c}, behind := true)
    case Restart => State(s.persisted, s.persisted, map[], false)
  }

  ghost predicate StepAt(states: seq<State>, steps: seq<Step>, locked: bool, i: nat)
    requires |states| == |steps| + 1 && i < |steps|
  {
    Enabled(states[i], steps[i], locked) && states[i + 1] == Next(states[i], steps[i])
  }

  /** A run from a freshly loaded registry. */
  ghost predicate IsRun(states: seq<State>, steps: seq<Step>, locked: bool) {
    && |states| == |steps| + 1
    && states[0] == State(states[0].persisted, states[0].persisted, map[], false)
    && forall i :: 0 <= i < |steps| ==> StepAt(states, steps, locked, i)
  }

  /** Guards hold the map as it is, and an unsaved edit is still owed by some call. */
  ghost predicate Inv(s: State) {
    && (forall c :: c in s.callers && s.callers[c].Guarded? ==> s.callers[c].snapshot == s.table)
    && (s.table == s.persisted || s.behind || s.callers != map[])
  }

  lemma StepKeepsInv(s: State, step: Step)
    requires Inv(s) && Enabled(s, step, true)
    ensures Inv(Next(s, step))
  {
    if step.DoEdit? || step.Guard? {
      assert step.c in Next(s, step).callers;
    }
  }

  lemma {:induction false} RunKeepsInv(states: seq<State>, steps: seq<Step>, n: nat)
    requires IsRun(states, steps, true) && n < |states|
    ensures Inv(states[n])
  {
    if n > 0 {
      assert StepAt(states, steps, true, n - 1);
      RunKeepsInv(states, steps, n - 1);
      StepKeepsInv(states[n - 1], steps[n - 1]);
    }
  }

  /** Once every call has returned, and none has failed since the last save, a restart loads exactly the map. */
  lemma PersistedEqualsMemory(states: seq<State>, steps: seq<Step>, n: nat)
    requires IsRun(states, steps, true) && n < |states|
    requires states[n].callers == map[] && !states[n].behind
    ensures states[n].persisted == states[n].table
    ensures Next(states[n], Restart) == states[n]
  {
    RunKeepsInv(states, steps, n);
  }

  /** A save that goes through makes up for every failure before it. */
  lemma SaveCatchesUp(states: seq<State>, steps: seq<Step>, n: nat)
    requires IsRun(states, steps, true) && n < |steps| && steps[n].Save?
    ensures states[n + 1].persisted == states[n + 1].table
  {
    assert StepAt(states, steps, true, n);
    RunKeepsInv(states, steps, n);
  }

  /** A call whose steps go through in turn has its edit in the map and on disk; one that fails is over and keeps the edit. */
  lemma CallRunsThrough(s: State, c: string, e: Edit)
    requires c !in s.callers && !Guards(s)
    ensures Enabled(s, DoEdit(c, e), true)
    ensures
      var s1 := Next(s, DoEdit(c, e));
      && s1.table == Edited(s.table, e) && s1.persisted == s.persisted && Enabled(s1, Guard(c), true)
      && var s2 := Next(s1, Guard(c));
      && Enabled(s2, Save(c), true) && Enabled(s2, Fail(c), true)
      && Next(s2, Save(c)).table == Edited(s.table, e) && Next(s2, Save(c)).persisted == Edited(s.table, e)
      && Next(s2, Fail(c)).table == Edited(s.table, e) && Next(s2, Fail(c)).persisted == s.persisted
      && Next(s2, Save(c)).callers == s.callers && Next(s2, Fail(c)).callers == s.callers
  {
    var s2 := Next(Next(s, DoEdit(c, e)), Guard(c));
    assert s2.callers - {c} == s.callers;
  }

  /** A restart forgets every call and whatever was not saved. */
  lemma RestartLoadsWhatWasSaved(s: State)
    ensures Next(s, Restart).table == s.persisted && Next(s, Restart).persisted == s.persisted
    ensures Next(s, Restart).callers == map[]
  {
  }

  /** The guard is what makes it so: without it, two registrations that both return Ok can lose one on disk. */
  lemma WithoutTheGuardAnEditIsLost(t: Table, a: WorkerInfo, b: WorkerInfo)
    returns (states: seq<State>, steps: seq<Step>)
    requires a.workerName != b.workerName && a.workerName !in t && b.workerName !in t
    ensures IsRun(states, steps, false) && |states| == 7
    ensures states[6].callers == map[] && !states[6].behind
    ensures b.workerName in states[6].table && b.workerName !in states[6].persisted
  {
    var ta := t[a.workerName := a];
    var tb := ta[b.workerName := b];
    var s0 := State(t, t, map[], false);
    var s1 := State(ta, t, map["a" := Unsaved], false);
    var s2 := State(ta, t, map["a" := Guarded(ta)], false);
    var s3 := State(tb, t, map["a" := Guarded(ta), "b" := Unsaved], false);
    var s4 := State(tb, t, map["a" := Guarded(ta), "b" := Guarded(tb)], false);
    var s5 := State(tb, tb, map["a" := Guarded(ta)], false);
    var s6 := State(tb, ta, map[], false);
    assert s1 == Next(s0, DoEdit("a", Register(a)));
    assert s2 == Next(s1, Guard("a"));
    assert s3 == Next(s2, DoEdit("b", Register(b)));
    assert s4 == Next(s3, Guard("b"));
    assert s5 == Next(s4, Save("b"));
    assert s6 == Next(s5, Save("a"));
    steps := [DoEdit("a", Register(a)), Guard("a"), DoEdit("b", Register(b)), Guard("b"), Save("b"), Save("a")];
    states := [s0, s1, s2, s3, s4, s5, s6];
    assert forall i :: 0 <= i < |steps| ==> StepAt(states, steps, false, i);
  }

  // ---- The object ------------------------------------------------------------

  /** The log the registry saves to; `up` says whether writes go through. */
  class RegistryLog {
    var registry: Table
    var up: bool

    constructor (registry: Table, up: bool)
      ensures this.registry == registry && this.up == up
    {
      this.registry := registry;
      this.up := up;
    }

    method SaveWorkerRegistry(t: Table) returns (ok: bool)
      modifies this`registry
      ensures ok == up
      ensures registry == if ok then t else old(registry)
    {
      ok := up;
      if ok {
        registry := t;
      }
    }
  }

  /** The map is edited whether or not the save goes through; the log then holds the whole map. */
  predicate Did(e: Edit, t: Table, t': Table, ok: bool, up: bool, saved: Table, saved': Table) {
    t' == Edited(t, e) && ok == up && saved' == if ok then t' else saved
  }

  class WorkerRegistry {
    var workers: Table
    const wal: RegistryLog

    constructor (wal: RegistryLog)
      ensures this.wal == wal && workers == wal.registry
    {
      this.wal := wal;
      workers := wal.registry;
    }

    method Register(info: WorkerInfo) returns (ok: bool)
      modifies this`workers, wal`registry
      ensures Did(Edit.Register(info), old(workers), workers, ok, old(wal.up), old(wal.registry), wal.registry)
    {
      workers := workers[info.workerName := info];
      ok := wal.SaveWorkerRegistry(workers);
    }

    method Unregister(id: string) returns (ok: bool)
      modifies this`workers, wal`registry
      ensures Did(Edit.Unregister(id), old(workers), workers, ok, old(wal.up), old(wal.registry), wal.registry)
    {
      workers := workers - {id};
      ok := wal.SaveWorkerRegistry(workers);
    }

    method Heartbeat(id: string, at: Time) returns (ok: bool)
      modifies this`workers, wal`registry
      ensures Did(Edit.Heartbeat(id, at), old(workers), workers, ok, old(wal.up), old(wal.registry), wal.registry)
    {
      if id in workers {
        workers := workers[id := workers[id].(lastHeartbeat := at)];
      }
      ok := wal.SaveWorkerRegistry(workers);
    }

    /** The workers of a topic, once each, in no particular order. */
    method GetWorkers(topic: string) returns (list: seq<WorkerInfo>)
      requires Keyed(workers)
      ensures forall i :: i in list <==> i.workerName in workers && workers[i.workerName] == i && i.topic == topic
      ensures forall i, j :: 0 <= i < j < |list| ==> list[i].workerName != list[j].workerName
    {
      list := [];
      var left := workers.Keys;
      while left != {}
        invariant left <= workers.Keys
        invariant forall i :: i in list <==>
                    i.workerName in workers.Keys - left && workers[i.workerName] == i && i.topic == topic
        invariant forall i, j :: 0 <= i < j < |list| ==> list[i].workerName != list[j].workerName
        decreases left
      {
        var id :| id in left;
        if workers[id].topic == topic {
          list := list + [workers[id]];
        }
        left := left - {id};
      }
    }

    method FindStale(now: Time, timeout: nat) returns (stale: seq<string>)
      ensures forall id :: id in stale <==> id in workers && Stale(workers[id], now, timeout)
      ensures forall i, j :: 0 <= i < j < |stale| ==> stale[i] != stale[j]
    {
      stale := [];
      var left := workers.Keys;
      while left != {}
        invariant left <= workers.Keys
        invariant forall id :: id in stale <==> id in workers.Keys - left && Stale(workers[id], now, timeout)
        invariant forall i, j :: 0 <= i < j < |stale| ==> stale[i] != stale[j]
        decreases left
      {
        var id :| id in left;
        var alive := workers[id].lastHeartbeat <= now && now - workers[id].lastHeartbeat <= timeout;
        if !alive {
          stale := stale + [id];
        }
        left := left - {id};
      }
    }

    method CleanupStale(now: Time, timeout: nat) returns (ok: bool, stale: seq<string>)
      modifies this`workers, wal`registry
      ensures Did(Edit.Cleanup(now, timeout), old(workers), workers, ok, old(wal.up), old(wal.registry), wal.registry)
      ensures forall id :: id in stale <==> id in old(workers) && id !in workers
    {
      stale := FindStale(now, timeout);
      ghost var was := workers;
      for i := 0 to |stale|
        invariant workers == was - (set k | k in stale[..i])
        invariant wal.registry == old(wal.registry)
      {
        workers := workers - {stale[i]};
        assert stale[..i + 1] == stale[..i] + [stale[i]];
      }
      assert stale[..|stale|] == stale;
      assert workers == Edited(was, Edit.Cleanup(now, timeout));
      ok := wal.SaveWorkerRegistry(workers);
    }
  }
}

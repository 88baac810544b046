/**
 The file-backed write-ahead log: everything in memory, written whole to a
 temporary file on flush and renamed into place.
 */
module PersistentWal {
  import opened Messages
  import opened DelayStore
  import Registry
  import WorkerProcess

  /** All the log holds, and all a flush writes. */
  datatype WalStore = WalStore(
    records: map<string, Record>,
    delays: map<string, Record>,
    registry: Registry.Table,
    counter: nat)

  const EMPTY: WalStore := WalStore(map[], map[], map[], 0)

  datatype Op =
    | Append(r: Record)
    | UpdateState(id: string, status: WalStatus)
    | Schedule(r: Record)
    | FetchReady(now: Time)
    | RemoveScheduled(id: string)
    | SaveRegistry(t: Registry.Table)

  /** An update for an unknown message is an error and changes nothing. */
  function Applied(s: WalStore, op: Op): WalStore {
    match op
    case Append(r) =>
      s.(records := s.records[r.message.id := r.(recordId := s.counter + 1)], counter := s.counter + 1)
    case UpdateState(id, status) =>
      if id in s.records then s.(records := s.records[id := s.records[id].(status := status)]) else s
    case Schedule(r) =>
      s.(delays := s.delays[r.message.id := r.(recordId := s.counter + 1)], counter := s.counter + 1)
    case FetchReady(now) => s.(delays := Left(Memory, s.delays, now))
    case RemoveScheduled(id) => s.(delays := s.delays - {id})
    case SaveRegistry(t) => s.(registry := t)
  }

  // ---- Record ids --------------------------------------------------------------

  /** Records filed under their own id, with distinct record ids up to the counter. */
  ghost predicate Numbered(a: map<string, Record>, counter: nat) {
    && Filed(a)
    && (forall x :: x in a ==> 0 < a[x].recordId <= counter)
    && (forall x, y :: x in a && y in a && x != y ==> a[x].recordId != a[y].recordId)
  }

  ghost predicate Apart(a: map<string, Record>, b: map<string, Record>) {
    forall x, y :: x in a && y in b ==> a[x].recordId != b[y].recordId
  }

  /** No two stored records share an id, and none is past the counter. */
  ghost predicate Sound(s: WalStore) {
    Numbered(s.records, s.counter) && Numbered(s.delays, s.counter) && Apart(s.records, s.delays)
  }

  lemma AppendKeepsSound(s: WalStore, r: Record)
    requires Sound(s)
    ensures Sound(Applied(s, Append(r)))
  {
  }

  lemma ScheduleKeepsSound(s: WalStore, r: Record)
    requires Sound(s)
    ensures Sound(Applied(s, Op.Schedule(r)))
  {
  }

  lemma UpdateKeepsSound(s: WalStore, id: string, status: WalStatus)
    requires Sound(s)
    ensures Sound(Applied(s, UpdateState(id, status)))
  {
  }

  lemma DropKeepsSound(s: WalStore, rest: map<string, Record>)
    requires Sound(s) && forall x :: x in rest ==> x in s.delays && rest[x] == s.delays[x]
    ensures Sound(s.(delays := rest))
  {
  }

  lemma OpKeepsSound(s: WalStore, op: Op)
    requires Sound(s)
    ensures Sound(Applied(s, op))
  {
    match op
    case Append(r) => AppendKeepsSound(s, r);
    case Schedule(r) => ScheduleKeepsSound(s, r);
    case UpdateState(id, status) => UpdateKeepsSound(s, id, status);
    case FetchReady(now) => DropKeepsSound(s, Left(Memory, s.delays, now));
    case RemoveScheduled(id) => DropKeepsSound(s, s.delays - {id});
    case SaveRegistry(_) =>
  }

  // ---- What a sequence of operations leaves --------------------------------------

  function AfterOps(s: WalStore, ops: seq<Op>): WalStore {
    if ops == [] then s else Applied(AfterOps(s, ops[..|ops| - 1]), ops[|ops| - 1])
  }

  /** Operations that number a record. */
  function Numberings(ops: seq<Op>): nat {
    if ops == [] then 0
    else Numberings(ops[..|ops| - 1]) + if ops[|ops| - 1].Append? || ops[|ops| - 1].Schedule? then 1 else 0
  }

  lemma {:induction false} CounterCounts(s: WalStore, ops: seq<Op>)
    ensures AfterOps(s, ops).counter == s.counter + Numberings(ops)
  {
    if ops != [] {
      CounterCounts(s, ops[..|ops| - 1]);
    }
  }

  /** The status of a record appended with `status` once these operations have followed. */
  function StatusAfter(ops: seq<Op>, id: string, status: WalStatus): WalStatus {
    if ops == [] then status
    else
      var last := ops[|ops| - 1];
      if last.UpdateState? && last.id == id then last.status else StatusAfter(ops[..|ops| - 1], id, status)
  }

  /**
   Whatever followed, the log holds a message as it was last appended, numbered in turn,
   with the last status reported for it since.
   */
  lemma {:induction false} RecordIsAsLastAppended(s: WalStore, ops: seq<Op>, k: nat)
    requires k < |ops| && ops[k].Append?
    requires forall j :: k < j < |ops| && ops[j].Append? ==> ops[j].r.message.id != ops[k].r.message.id
    ensures
      var r := ops[k].r;
      && r.message.id in AfterOps(s, ops).records
      && AfterOps(s, ops).records[r.message.id] ==
           Record(s.counter + Numberings(ops[..k + 1]), r.message, StatusAfter(ops[k + 1..], r.message.id, r.status))
  {
    var front := ops[..|ops| - 1];
    CounterCounts(s, front);
    if k == |front| {
      assert ops[..k + 1] == ops;
    } else {
      RecordIsAsLastAppended(s, front, k);
      assert front[..k + 1] == ops[..k + 1];
      assert front[k + 1..] == ops[k + 1..][..|ops| - k - 2];
    }
  }

  /** A message that was never appended has the record it had, or none. */
  lemma {:induction false} NothingElseIsRecorded(s: WalStore, ops: seq<Op>, id: string)
    requires forall j :: 0 <= j < |ops| && ops[j].Append? ==> ops[j].r.message.id != id
    ensures id in AfterOps(s, ops).records <==> id in s.records
    ensures id in s.records ==> AfterOps(s, ops).records[id] == s.records[id].(status := StatusAfter(ops, id, s.records[id].status))
  {
    if ops != [] {
      NothingElseIsRecorded(s, ops[..|ops| - 1], id);
    }
  }

  /** The delay operations do to the delays what the in-memory store does, and no other operation touches them. */
  lemma DelaysFollowTheMemoryStore(s: WalStore, op: Op)
    ensures
      var was, now := Store(s.delays, s.counter, {}), Applied(s, op);
      match op
      case Schedule(r) =>
        Store(now.delays, now.counter, {}) == DelayStore.Do(Memory, was, DelayStore.Schedule(r)) && now.records == s.records
      case FetchReady(t) => now == s.(delays := DelayStore.Do(Memory, was, DelayStore.FetchReady(t)).delays)
      case RemoveScheduled(id) => now == s.(delays := DelayStore.Do(Memory, was, DelayStore.RemoveScheduled(id)).delays)
      case SaveRegistry(t) => now.registry == t && now.(registry := s.registry) == s
      case _ => now.delays == s.delays && now.registry == s.registry
  {
  }

  // ---- The object ----------------------------------------------------------------

  /** A file path split where `with_extension` splits it. */
  datatype Path = Path(parent: string, stem: string, extension: Option<string>)

  function TempPath(p: Path): Path {
    p.(extension := Some("tmp"))
  }

  /** The bytes of a file: a whole encoded store, or a write cut short. */
  datatype File = Whole(store: WalStore) | Torn

  class Disk {
    var files: map<Path, File>

    constructor (files: map<Path, File>)
      ensures this.files == files
    {
      this.files := files;
    }

    method Write(p: Path, f: File)
      modifies this
      ensures files == old(files)[p := f]
    {
      files := files[p := f];
    }

    method Rename(from: Path, to: Path)
      requires from in files
      modifies this
      ensures files == (old(files) - {from})[to := old(files)[from]]
    {
      var f := files[from];
      files := (files - {from})[to := f];
    }
  }

  /** What opening a path finds: nothing to load, a store, or bytes that do not decode. */
  function Opened(files: map<Path, File>, p: Path): Option<WalStore> {
    if p !in files then Some(EMPTY)
    else match files[p]
      case Whole(s) => Some(s)
      case Torn => None
  }

  class Wal {
    var records: map<string, Record>
    var delays: map<string, Record>
    var registry: Registry.Table
    var counter: nat
    const path: Path

    ghost function View(): WalStore
      reads this
    {
      WalStore(records, delays, registry, counter)
    }

    constructor (path: Path, s: WalStore)
      ensures View() == s && this.path == path
    {
      this.path := path;
      records, delays, registry, counter := s.records, s.delays, s.registry, s.counter;
    }

    static method Open(disk: Disk, path: Path) returns (wal: Wal?)
      ensures wal == null <==> Opened(disk.files, path).None?
      ensures wal != null ==> fresh(wal) && wal.path == path && Opened(disk.files, path) == Some(wal.View())
    {
      if path !in disk.files {
        wal := new Wal(path, EMPTY);
      } else if disk.files[path].Whole? {
        wal := new Wal(path, disk.files[path].store);
      } else {
        wal := null;
      }
    }

    method Append(r: Record)
      modifies this
      ensures View() == Applied(old(View()), Op.Append(r))
    {
      counter := counter + 1;
      records := records[r.message.id := r.(recordId := counter)];
    }

    method UpdateState(id: string, status: WalStatus) returns (found: bool)
      modifies this
      ensures View() == Applied(old(View()), Op.UpdateState(id, status))
      ensures found == (id in old(records))
    {
      found := id in records;
      if found {
        records := records[id := records[id].(status := status)];
      }
    }

    method Schedule(r: Record)
      modifies this
      ensures View() == Applied(old(View()), Op.Schedule(r))
    {
      counter := counter + 1;
      delays := delays[r.message.id := r.(recordId := counter)];
    }

    method FetchReady(now: Time) returns (ready: seq<Record>)
      requires Filed(delays)
      modifies this`delays
      ensures View() == Applied(old(View()), Op.FetchReady(now))
      ensures IsHarvest(Memory, old(delays), now, ready)
    {
      ready, delays := TakeDue(delays, now);
    }

    method RemoveScheduled(id: string)
      modifies this`delays
      ensures View() == Applied(old(View()), Op.RemoveScheduled(id))
    {
      delays := delays - {id};
    }

    method SaveWorkerRegistry(t: Registry.Table)
      modifies this`registry
      ensures View() == Applied(old(View()), Op.SaveRegistry(t))
    {
      registry := t;
    }

    /** The pending records, once each. */
    method ReplayPending() returns (pending: seq<Record>)
      requires Filed(records)
      ensures forall r :: r in pending <==> r.message.id in records && records[r.message.id] == r && r.status == Pending
      ensures forall i, j :: 0 <= i < j < |pending| ==> pending[i].message.id != pending[j].message.id
    {
      pending := [];
      var left := records.Keys;
      while left != {}
        invariant left <= records.Keys
        invariant forall r :: r in pending <==>
                    r.message.id in records.Keys - left && records[r.message.id] == r && r.status == Pending
        invariant forall i, j :: 0 <= i < j < |pending| ==> pending[i].message.id != pending[j].message.id
        decreases left
      {
        var id :| id in left;
        if records[id].status == Pending {
          pending := pending + [records[id]];
        }
        left := left - {id};
      }
    }

    /**
     A flush whose write or rename may fail: once it goes through, the path opens to
     exactly what is in memory; when it fails, the path opens to what it did before,
     as long as the temporary file is another one.
     */
    method Flush(disk: Disk, writes: bool, renames: bool) returns (ok: bool)
      modifies disk
      ensures ok == (writes && renames)
      ensures ok ==> Opened(disk.files, path) == Some(View())
      ensures !ok && path.extension != Some("tmp") ==> Opened(disk.files, path) == Opened(old(disk.files), path)
      ensures forall p :: p != path && p != TempPath(path) ==>
                (p in disk.files <==> p in old(disk.files)) && (p in disk.files ==> disk.files[p] == old(disk.files)[p])
    {
      var store := WalStore(records, delays, registry, counter);
      disk.Write(TempPath(path), if writes then Whole(store) else Torn);
      if !writes || !renames {
        return false;
      }
      disk.Rename(TempPath(path), path);
      ok := true;
    }
  }

  // ---- Crashes -------------------------------------------------------------------

  datatype Phase =
    | Closed
    | Open(store: WalStore)
    | Writing(store: WalStore)   // the temporary file is being written
    | Written(store: WalStore)   // written, not yet renamed

  /** `flushed` is history: what the last completed flush wrote. */
  datatype State = State(files: map<Path, File>, phase: Phase, flushed: WalStore)

  datatype Step = Do(op: Op) | BeginFlush | EndWrite | Rename | GiveUp | Crash | Reopen

  predicate Enabled(s: State, step: Step, path: Path) {
    match step
    case Do(_) => s.phase.Open?
    case BeginFlush => s.phase.Open?
    case EndWrite => s.phase.Writing?
    case Rename => s.phase.Written? && TempPath(path) in s.files
    case GiveUp => s.phase.Writing? || s.phase.Written?
    case Crash => !s.phase.Closed?
    case Reopen => s.phase.Closed?
  }

  /** `GiveUp` is a flush that returns an error; a file that does not decode leaves the log closed. */
  function Next(s: State, step: Step, path: Path): State
    requires Enabled(s, step, path)
  {
    match step
    case Do(op) => s.(phase := Open(Applied(s.phase.store, op)))
    case BeginFlush => s.(files := s.files[TempPath(path) := Torn], phase := Writing(s.phase.store))
    case EndWrite => s.(files := s.files[TempPath(path) := Whole(s.phase.store)], phase := Written(s.phase.store))
    case Rename =>
      State((s.files - {TempPath(path)})[path := s.files[TempPath(path)]], Open(s.phase.store), s.phase.store)
    case GiveUp => s.(phase := Open(s.phase.store))
    case Crash => s.(phase := Closed)
    case Reopen =>
      match Opened(s.files, path)
      case Some(store) => s.(phase := Open(store))
      case None => s
  }

  ghost predicate StepAt(states: seq<State>, steps: seq<Step>, path: Path, i: nat)
    requires |states| == |steps| + 1 && i < |steps|
  {
    Enabled(states[i], steps[i], path) && states[i + 1] == Next(states[i], steps[i], path)
  }

  /** A run that starts with the log closed and its file absent or left by an earlier flush. */
  ghost predicate IsRun(states: seq<State>, steps: seq<Step>, path: Path) {
    && |states| == |steps| + 1
    && states[0].phase.Closed? && Opened(states[0].files, path) == Some(states[0].flushed) && Sound(states[0].flushed)
    && forall i :: 0 <= i < |steps| ==> StepAt(states, steps, path, i)
  }

  ghost predicate Inv(s: State, path: Path) {
    && Opened(s.files, path) == Some(s.flushed)
    && (s.phase.Written? ==> TempPath(path) in s.files && s.files[TempPath(path)] == Whole(s.phase.store))
    && (!s.phase.Closed? ==> Sound(s.phase.store))
    && Sound(s.flushed)
  }

  lemma StepKeepsInv(s: State, step: Step, path: Path)
    requires Inv(s, path) && Enabled(s, step, path) && TempPath(path) != path
    ensures Inv(Next(s, step, path), path)
  {
    if step.Do? {
      OpKeepsSound(s.phase.store, step.op);
    }
  }

  lemma {:induction false} RunKeepsInv(states: seq<State>, steps: seq<Step>, path: Path, n: nat)
    requires IsRun(states, steps, path) && n < |states| && TempPath(path) != path
    ensures Inv(states[n], path)
  {
    if n > 0 {
      assert StepAt(states, steps, path, n - 1);
      RunKeepsInv(states, steps, path, n - 1);
      StepKeepsInv(states[n - 1], steps[n - 1], path);
    }
  }

  /** However operations, flushes and crashes interleave, reopening gives exactly the last completed flush. */
  lemma ReopenGivesTheLastFlush(states: seq<State>, steps: seq<Step>, path: Path, n: nat)
    requires IsRun(states, steps, path) && n < |states| && path.extension != Some("tmp")
    requires states[n].phase.Closed?
    ensures Next(states[n], Reopen, path).phase == Open(states[n].flushed)
  {
    RunKeepsInv(states, steps, path, n);
  }

  /** A flush that fails at either point leaves memory, and what the path opens to, as they were. */
  lemma FailedFlushLosesNothing(s: State, path: Path)
    requires s.phase.Open? && path.extension != Some("tmp")
    ensures
      var writing := Next(s, BeginFlush, path);
      var written := Next(writing, EndWrite, path);
      var early, late := Next(writing, GiveUp, path), Next(written, GiveUp, path);
      && early.phase == s.phase && late.phase == s.phase && early.flushed == s.flushed && late.flushed == s.flushed
      && Opened(early.files, path) == Opened(s.files, path) && Opened(late.files, path) == Opened(s.files, path)
  {
  }

  lemma StoreAfterStep(s: State, step: Step, path: Path)
    requires Enabled(s, step, path) && !s.phase.Closed? && !step.Crash?
    ensures !Next(s, step, path).phase.Closed?
    ensures Next(s, step, path).phase.store == if step.Do? then Applied(s.phase.store, step.op) else s.phase.store
  {
  }

  lemma OneMoreOp(s: WalStore, ops: seq<Op>, op: Op)
    ensures AfterOps(s, ops + [op]) == Applied(AfterOps(s, ops), op)
  {
    assert (ops + [op])[..|ops|] == ops;
  }

  /** The operations among the steps from the `i`-th up to the `n`-th. */
  function OpsBetween(steps: seq<Step>, i: nat, n: nat): seq<Op>
    requires n <= |steps|
  {
    if n <= i then [] else OpsBetween(steps, i, n - 1) + if steps[n - 1].Do? then [steps[n - 1].op] else []
  }

  /** The store an open log has in memory after some steps since it had `s`. */
  ghost predicate InMemory(s: WalStore, t: State, steps: seq<Step>, i: nat, n: nat)
    requires n <= |steps|
  {
    !t.phase.Closed? && t.phase.store == AfterOps(s, OpsBetween(steps, i, n))
  }

  lemma MemoryGoesOn(s: WalStore, t: State, steps: seq<Step>, path: Path, i: nat, n: nat)
    requires i <= n < |steps| && InMemory(s, t, steps, i, n) && Enabled(t, steps[n], path) && !steps[n].Crash?
    ensures InMemory(s, Next(t, steps[n], path), steps, i, n + 1)
  {
    var ops := OpsBetween(steps, i, n);
    StoreAfterStep(t, steps[n], path);
    if steps[n].Do? {
      OneMoreOp(s, ops, steps[n].op);
    } else {
      assert ops + [] == ops;
    }
  }

  /** Between two states of an open log with no crash in between, memory has seen every operation once and in order. */
  lemma {:induction false} EveryOperationIsInMemory(states: seq<State>, steps: seq<Step>, path: Path, i: nat, n: nat)
    requires IsRun(states, steps, path) && i <= n < |states| && !states[i].phase.Closed?
    requires forall k :: i <= k < n ==> !steps[k].Crash?
    ensures InMemory(states[i].phase.store, states[n], steps, i, n)
    decreases n - i
  {
    if i < n {
      assert StepAt(states, steps, path, n - 1);
      EveryOperationIsInMemory(states, steps, path, i, n - 1);
      MemoryGoesOn(states[i].phase.store, states[n - 1], steps, path, i, n - 1);
    }
  }

  /** What a completed flush leaves to be opened is everything done since the log was opened. */
  lemma FlushKeepsEveryOperation(states: seq<State>, steps: seq<Step>, path: Path, i: nat, n: nat)
    requires IsRun(states, steps, path) && i <= n < |steps| && path.extension != Some("tmp")
    requires !states[i].phase.Closed? && (forall k :: i <= k < n ==> !steps[k].Crash?) && steps[n].Rename?
    ensures Opened(states[n + 1].files, path) == Some(AfterOps(states[i].phase.store, OpsBetween(steps, i, n)))
  {
    EveryOperationIsInMemory(states, steps, path, i, n);
    RunKeepsInv(states, steps, path, n);
    assert StepAt(states, steps, path, n);
  }

  lemma RecordIdsStayDistinct(states: seq<State>, steps: seq<Step>, path: Path, n: nat)
    requires IsRun(states, steps, path) && n < |states| && path.extension != Some("tmp")
    ensures Sound(states[n].flushed)
    ensures !states[n].phase.Closed? ==> Sound(states[n].phase.store)
  {
    RunKeepsInv(states, steps, path, n);
  }

  /**
   With the extension `tmp` the write goes to the file itself. A crash during the write
   leaves nothing to open; a crash after it and before the flush is over leaves what
   no completed flush wrote.
   */
  lemma TmpPathLosesTheLastFlush(s: State, path: Path)
    requires s.phase.Open? && path.extension == Some("tmp")
    ensures
      var writing := Next(s, BeginFlush, path);
      var torn := Next(writing, Crash, path);
      var early := Next(Next(writing, EndWrite, path), Crash, path);
      && Opened(torn.files, path) == None && Next(torn, Reopen, path) == torn
      && Opened(early.files, path) == Some(s.phase.store) && early.flushed == s.flushed
  {
  }

  /** Whenever the log is closed, opening it gives the last completed flush. */
  ghost predicate AlwaysRecovers(path: Path) {
    forall states: seq<State>, steps: seq<Step>, n: nat :: IsRun(states, steps, path) && n < |states| && states[n].phase.Closed? ==>
      Next(states[n], Reopen, path).phase == Open(states[n].flushed)
  }

  lemma TmpRun(path: Path) returns (states: seq<State>, steps: seq<Step>)
    requires path.extension == Some("tmp")
    ensures IsRun(states, steps, path) && |states| == 4
    ensures states[3].phase.Closed? && Next(states[3], Reopen, path).phase.Closed?
  {
    var s0 := State(map[], Closed, EMPTY);
    var s1 := Next(s0, Reopen, path);
    var s2 := Next(s1, BeginFlush, path);
    var s3 := Next(s2, Crash, path);
    states, steps := [s0, s1, s2, s3], [Reopen, BeginFlush, Crash];
    assert StepAt(states, steps, path, 0) && StepAt(states, steps, path, 1) && StepAt(states, steps, path, 2);
  }

  /** Over all runs, the log recovers exactly if its file has another extension than the temporary one. */
  lemma RecoversExactlyUnlessTmp(path: Path)
    ensures AlwaysRecovers(path) <==> path.extension != Some("tmp")
  {
    if path.extension != Some("tmp") {
      forall states: seq<State>, steps: seq<Step>, n: nat | IsRun(states, steps, path) && n < |states| && states[n].phase.Closed?
        ensures Next(states[n], Reopen, path).phase == Open(states[n].flushed)
      {
        ReopenGivesTheLastFlush(states, steps, path, n);
      }
    } else {
      var states, steps := TmpRun(path);
      assert !(Next(states[3], Reopen, path).phase == Open(states[3].flushed));
    }
  }

  // ---- Status updates and replay ------------------------------------------------------

  /** The log after the sync handler has applied these updates; unknown ids are skipped. */
  function AfterSyncs(s: WalStore, syncs: seq<WorkerProcess.Sync>): WalStore {
    if syncs == [] then s
    else
      var u := syncs[|syncs| - 1];
      Applied(AfterSyncs(s, syncs[..|syncs| - 1]), UpdateState(u.messageId, u.status))
  }

  function Only(syncs: seq<WorkerProcess.Sync>, id: string): seq<WorkerProcess.Sync> {
    if syncs == [] then []
    else
      var u := syncs[|syncs| - 1];
      Only(syncs[..|syncs| - 1], id) + (if u.messageId == id then [u] else [])
  }

  /** A record ends on the last status reported for it, whatever was reported for others in between. */
  lemma {:induction false} LastStatusWins(s: WalStore, syncs: seq<WorkerProcess.Sync>, id: string)
    requires id in s.records
    ensures id in AfterSyncs(s, syncs).records
    ensures
      var mine := Only(syncs, id);
      AfterSyncs(s, syncs).records[id] ==
        if mine == [] then s.records[id] else s.records[id].(status := mine[|mine| - 1].status)
  {
    if syncs != [] {
      LastStatusWins(s, syncs[..|syncs| - 1], id);
    }
  }

  /** The record of a business run is replayed after it exactly when the run put the message back. */
  lemma ReplayedExactlyWhenPutBack(s: WalStore, syncs: seq<WorkerProcess.Sync>, workerTopic: string,
                                   m: EMessage, after: EMessage, ack: Ack, now: Time)
    requires m.id in s.records && after.id == m.id && !IsSystemTopic(workerTopic)
    requires Only(syncs, m.id) == WorkerProcess.Run(workerTopic, m, after, ack, now).syncs
    ensures
      var d := WorkerProcess.Run(workerTopic, m, after, ack, now).disposition;
      var r := AfterSyncs(s, syncs).records;
      m.id in r && (r[m.id].status == Pending <==> d.Requeued? || d.Retried?) &&
      (r[m.id].status == Failed <==> d.DeadLettered?) && (r[m.id].status == Complete <==> d.Finished?)
  {
    LastStatusWins(s, syncs, m.id);
    WorkerProcess.StatusesMatchDisposition(workerTopic, m, after, ack, now);
  }
}

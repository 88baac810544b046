/**
 The timing of heartbeats and stale sweeps: who a sweep spares and how long a
 silent worker can stay in the registry.
 */
module Heartbeats {
  import opened Messages
  import opened Registry

  const SECOND: int := 1_000_000_000
  const HEARTBEAT_INTERVAL: int := 15 * SECOND
  const CLEANUP_INTERVAL: int := 30 * SECOND
  const STALE_TIMEOUT: nat := 90 * SECOND

  /** The clock reading an edit carries. */
  function Clock(e: Edit): Option<Time> {
    match e
    case Register(info) => Some(info.lastHeartbeat)
    case Unregister(_) => None
    case Heartbeat(_, at) => Some(at)
    case Cleanup(now, _) => Some(now)
  }

  /** Edits take effect in the order of their clock readings, none of them before `from`. */
  ghost predicate Monotone(from: Time, edits: seq<Edit>) {
    && (forall i :: 0 <= i < |edits| && Clock(edits[i]).Some? ==> from <= Clock(edits[i]).value)
    && (forall i, j :: 0 <= i < j < |edits| && Clock(edits[i]).Some? && Clock(edits[j]).Some? ==>
          Clock(edits[i]).value <= Clock(edits[j]).value)
  }

  predicate IsSign(e: Edit, w: string) {
    (e.Heartbeat? && e.id == w) || (e.Register? && e.info.workerName == w)
  }

  /** When the worker last registered or beat, having last done so at `from` before these edits. */
  function LastSign(w: string, from: Time, edits: seq<Edit>): Time {
    if edits == [] then from
    else
      var e := edits[|edits| - 1];
      if IsSign(e, w) then Clock(e).value else LastSign(w, from, edits[..|edits| - 1])
  }

  /** No sweep finds the worker's last sign older than the sweep's timeout. */
  ghost predicate Attended(w: string, from: Time, edits: seq<Edit>) {
    forall i :: 0 <= i < |edits| && edits[i].Cleanup? ==>
      edits[i].now - LastSign(w, from, edits[..i]) <= edits[i].timeout
  }

  lemma {:induction false} LastSignIsPast(w: string, from: Time, edits: seq<Edit>, i: nat)
    requires Monotone(from, edits) && i < |edits| && Clock(edits[i]).Some?
    ensures LastSign(w, from, edits[..i]) <= Clock(edits[i]).value
    decreases i
  {
    SignOfPrefix(w, from, edits, i);
  }

  lemma {:induction false} SignOfPrefix(w: string, from: Time, edits: seq<Edit>, n: nat)
    requires n <= |edits|
    ensures LastSign(w, from, edits[..n]) == from
         || exists j :: 0 <= j < n && IsSign(edits[j], w) && LastSign(w, from, edits[..n]) == Clock(edits[j]).value
  {
    if n > 0 {
      assert edits[..n][..n - 1] == edits[..n - 1];
      SignOfPrefix(w, from, edits, n - 1);
      if IsSign(edits[n - 1], w) {
        assert LastSign(w, from, edits[..n]) == Clock(edits[n - 1]).value;
      }
    }
  }

  ghost predicate NeverUnregistered(w: string, edits: seq<Edit>) {
    forall i :: 0 <= i < |edits| ==> edits[i] != Unregister(w)
  }

  lemma PrefixHolds(w: string, from: Time, edits: seq<Edit>)
    requires edits != [] && Monotone(from, edits) && Attended(w, from, edits)
    ensures Monotone(from, edits[..|edits| - 1]) && Attended(w, from, edits[..|edits| - 1])
  {
    var front := edits[..|edits| - 1];
    forall i | 0 <= i < |front| && front[i].Cleanup?
      ensures front[i].now - LastSign(w, from, front[..i]) <= front[i].timeout
    {
      assert front[..i] == edits[..i];
    }
  }

  /** Attended by its signs, a worker is never evicted, and the registry holds its latest sign. */
  lemma {:induction false} AttendedWorkerIsNeverEvicted(t: Table, w: string, edits: seq<Edit>)
    requires w in t && Monotone(t[w].lastHeartbeat, edits) && Attended(w, t[w].lastHeartbeat, edits)
    requires NeverUnregistered(w, edits)
    ensures w in AfterEdits(t, edits)
    ensures AfterEdits(t, edits)[w].lastHeartbeat == LastSign(w, t[w].lastHeartbeat, edits)
  {
    var from := t[w].lastHeartbeat;
    if edits != [] {
      var n := |edits| - 1;
      PrefixHolds(w, from, edits);
      AttendedWorkerIsNeverEvicted(t, w, edits[..n]);
      if edits[n].Cleanup? {
        LastSignIsPast(w, from, edits, n);
        assert edits[n].now - LastSign(w, from, edits[..n]) <= edits[n].timeout;
      }
    }
  }

  // ---- Lost heartbeats --------------------------------------------------------

  /** How many beats up to and including number `k` were lost in a row. */
  function LostInARow(lost: nat -> bool, k: nat): nat {
    if !lost(k) then 0 else if k == 0 then 1 else 1 + LostInARow(lost, k - 1)
  }

  lemma {:induction false} BeforeTheLostBeats(lost: nat -> bool, k: nat)
    requires !lost(0)
    ensures LostInARow(lost, k) <= k && !lost(k - LostInARow(lost, k))
  {
    if lost(k) {
      BeforeTheLostBeats(lost, k - 1);
    }
  }

  function BeatTime(start: Time, k: nat): Time {
    start + k * HEARTBEAT_INTERVAL
  }

  /** Beats are sent every interval, some are lost, and the others handled within `late` of being sent. */
  datatype Beats = Beats(start: Time, lost: nat -> bool, delay: nat -> nat, late: nat)

  function HandledAt(b: Beats, k: nat): Time {
    BeatTime(b.start, k) + b.delay(k)
  }

  /** A sweep comes after every beat handled before its clock reading. */
  ghost predicate Heard(w: string, b: Beats, edits: seq<Edit>) {
    forall i, k: nat {:trigger edits[i], HandledAt(b, k)} ::
      0 <= i < |edits| && edits[i].Cleanup? && HandledAt(b, k) < edits[i].now && !b.lost(k) ==>
        Heartbeat(w, HandledAt(b, k)) in edits[..i]
  }

  /** The first beat arrives, at most `limit` are lost in a row, and none is later than `late`. */
  ghost predicate Regular(b: Beats, limit: nat) {
    !b.lost(0) && (forall k :: LostInARow(b.lost, k) <= limit) && (forall k :: b.delay(k) <= b.late)
  }

  lemma {:induction false} LastSignIsLatest(w: string, from: Time, edits: seq<Edit>, j: nat, n: nat)
    requires Monotone(from, edits) && j < n <= |edits| && IsSign(edits[j], w)
    ensures Clock(edits[j]).value <= LastSign(w, from, edits[..n])
  {
    assert edits[..n][..n - 1] == edits[..n - 1];
    if j < n - 1 && !IsSign(edits[n - 1], w) {
      LastSignIsLatest(w, from, edits, j, n - 1);
    }
  }

  lemma LastBeatBefore(start: Time, now: Time) returns (k: nat)
    requires start < now
    ensures BeatTime(start, k) < now <= BeatTime(start, k) + HEARTBEAT_INTERVAL
  {
    k := (now - start - 1) / HEARTBEAT_INTERVAL;
  }

  lemma BeatsBetween(start: Time, h: nat, k: nat)
    requires h <= k
    ensures BeatTime(start, k) == BeatTime(start, h) + (k - h) * HEARTBEAT_INTERVAL
  {
  }

  /** At any clock reading the last beat handled is not much older than the longest gap. */
  lemma RecentBeat(b: Beats, limit: nat, now: Time) returns (h: nat)
    requires Regular(b, limit) && b.start + b.late < now
    ensures !b.lost(h) && HandledAt(b, h) < now <= HandledAt(b, h) + (limit + 1) * HEARTBEAT_INTERVAL + b.late
  {
    var k := LastBeatBefore(b.start, now - b.late);
    BeforeTheLostBeats(b.lost, k);
    h := k - LostInARow(b.lost, k);
    BeatsBetween(b.start, h, k);
    assert LostInARow(b.lost, k) <= limit && b.delay(h) <= b.late;
    assert (k - h) * HEARTBEAT_INTERVAL <= limit * HEARTBEAT_INTERVAL;
  }

  lemma SweepFindsARecentBeat(w: string, from: Time, edits: seq<Edit>, b: Beats, limit: nat, i: nat)
    requires Monotone(from, edits) && Heard(w, b, edits) && Regular(b, limit)
    requires i < |edits| && edits[i].Cleanup? && b.start + b.late < edits[i].now
    ensures edits[i].now - LastSign(w, from, edits[..i]) <= (limit + 1) * HEARTBEAT_INTERVAL + b.late
  {
    var h := RecentBeat(b, limit, edits[i].now);
    assert Heartbeat(w, HandledAt(b, h)) in edits[..i];
    var j :| 0 <= j < i && edits[j] == Heartbeat(w, HandledAt(b, h));
    LastSignIsLatest(w, from, edits, j, i);
  }

  /**
   Lost and late beats together: with at most `limit` lost in a row and the others at
   most `late` late, no sweep evicts the worker whose timeout covers both.
   */
  lemma LostAndLateBeatsAreTolerated(t: Table, w: string, edits: seq<Edit>, b: Beats, limit: nat)
    requires w in t && Monotone(t[w].lastHeartbeat, edits) && NeverUnregistered(w, edits)
    requires Regular(b, limit) && Heard(w, b, edits)
    requires forall i :: 0 <= i < |edits| && edits[i].Cleanup? ==>
               (limit + 1) * HEARTBEAT_INTERVAL + b.late <= edits[i].timeout && b.start + b.late < edits[i].now
    ensures w in AfterEdits(t, edits)
  {
    var from := t[w].lastHeartbeat;
    forall i | 0 <= i < |edits| && edits[i].Cleanup?
      ensures edits[i].now - LastSign(w, from, edits[..i]) <= edits[i].timeout
    {
      SweepFindsARecentBeat(w, from, edits, b, limit, i);
    }
    AttendedWorkerIsNeverEvicted(t, w, edits);
  }

  /** With a beat every 15 s, never more than five lost in a row and none late, no 90 s sweep evicts the worker. */
  lemma FiveLostBeatsAreTolerated(t: Table, w: string, edits: seq<Edit>, b: Beats)
    requires w in t && Monotone(t[w].lastHeartbeat, edits) && NeverUnregistered(w, edits)
    requires Regular(b, 5) && b.late == 0 && Heard(w, b, edits)
    requires forall i :: 0 <= i < |edits| && edits[i].Cleanup? ==>
               edits[i].timeout == STALE_TIMEOUT && b.start < edits[i].now
    ensures w in AfterEdits(t, edits)
  {
    LostAndLateBeatsAreTolerated(t, w, edits, b, 5);
  }

  /** A sixth lost beat is one too many: a sweep just after it was due evicts the worker. */
  lemma SixLostBeatsAreTooMany(t: Table, w: string, start: Time, now: Time)
    requires w in t && t[w].lastHeartbeat == start && BeatTime(start, 6) < now
    ensures w !in AfterEdits(t, [Cleanup(now, STALE_TIMEOUT)])
  {
  }

  // ---- Silence ----------------------------------------------------------------

  /** The clock reading of the last sweep among these edits, or of the one before them. */
  function LastSweep(before: Time, edits: seq<Edit>): Time {
    if edits == [] then before
    else if edits[|edits| - 1].Cleanup? then edits[|edits| - 1].now
    else LastSweep(before, edits[..|edits| - 1])
  }

  /** Sweeps with the standard timeout follow each other within the cleanup interval. */
  ghost predicate SweptRegularly(before: Time, edits: seq<Edit>) {
    forall i :: 0 <= i < |edits| && edits[i].Cleanup? ==>
      edits[i].timeout == STALE_TIMEOUT && edits[i].now <= LastSweep(before, edits[..i]) + CLEANUP_INTERVAL
  }

  ghost predicate Silent(w: string, edits: seq<Edit>) {
    forall i :: 0 <= i < |edits| ==> !IsSign(edits[i], w)
  }

  lemma {:induction false} SilenceNeverRefreshes(t: Table, w: string, edits: seq<Edit>)
    requires Silent(w, edits)
    ensures w in AfterEdits(t, edits) ==> w in t && AfterEdits(t, edits)[w] == t[w]
  {
    if edits != [] {
      var front := edits[..|edits| - 1];
      assert forall i :: 0 <= i < |front| ==> front[i] == edits[i];
      SilenceNeverRefreshes(t, w, front);
      assert !IsSign(edits[|edits| - 1], w);
    }
  }

  /** The first sweep read after `limit`, given that there is one at `last`. */
  lemma {:induction false} FirstSweepAfter(before: Time, limit: Time, edits: seq<Edit>, last: nat) returns (i: nat)
    requires last < |edits| && edits[last].Cleanup? && limit < edits[last].now
    requires before <= limit
    ensures i <= last && edits[i].Cleanup? && limit < edits[i].now
    ensures LastSweep(before, edits[..i]) <= limit
  {
    i := EarliestSweep(limit, edits, last);
    SweepOfPrefix(before, limit, edits, i);
  }

  lemma {:induction false} EarliestSweep(limit: Time, edits: seq<Edit>, last: nat) returns (i: nat)
    requires last < |edits| && edits[last].Cleanup? && limit < edits[last].now
    ensures i <= last && edits[i].Cleanup? && limit < edits[i].now
    ensures forall j :: 0 <= j < i && edits[j].Cleanup? ==> edits[j].now <= limit
  {
    if j :| 0 <= j < last && edits[j].Cleanup? && limit < edits[j].now {
      i := EarliestSweep(limit, edits, j);
    } else {
      i := last;
    }
  }

  lemma {:induction false} SweepOfPrefix(before: Time, limit: Time, edits: seq<Edit>, n: nat)
    requires n <= |edits| && before <= limit
    requires forall j :: 0 <= j < n && edits[j].Cleanup? ==> edits[j].now <= limit
    ensures LastSweep(before, edits[..n]) <= limit
  {
    if n > 0 {
      assert edits[..n][..n - 1] == edits[..n - 1];
      SweepOfPrefix(before, limit, edits, n - 1);
    }
  }

  /** A worker that falls silent is gone within 120 s of its last heartbeat, and stays gone. */
  lemma SilentWorkerIsEvicted(t: Table, w: string, edits: seq<Edit>, before: Time, last: nat) returns (i: nat)
    requires w in t && Silent(w, edits)
    requires SweptRegularly(before, edits) && before <= t[w].lastHeartbeat + STALE_TIMEOUT
    requires last < |edits| && edits[last].Cleanup? && t[w].lastHeartbeat + STALE_TIMEOUT < edits[last].now
    ensures i <= last && edits[i].Cleanup? && edits[i].now <= t[w].lastHeartbeat + STALE_TIMEOUT + CLEANUP_INTERVAL
    ensures forall k :: i < k <= |edits| ==> w !in AfterEdits(t, edits[..k])
  {
    i := FirstSweepAfter(before, t[w].lastHeartbeat + STALE_TIMEOUT, edits, last);
    forall k | i < k <= |edits|
      ensures w !in AfterEdits(t, edits[..k])
    {
      StaysGone(t, w, edits, i, k);
    }
  }

  lemma {:induction false} StaysGone(t: Table, w: string, edits: seq<Edit>, i: nat, k: nat)
    requires w in t && Silent(w, edits) && i < k <= |edits|
    requires edits[i].Cleanup? && Stale(t[w], edits[i].now, edits[i].timeout)
    ensures w !in AfterEdits(t, edits[..k])
  {
    assert edits[..k][..k - 1] == edits[..k - 1];
    if i == k - 1 {
      assert Silent(w, edits[..i]);
      SilenceNeverRefreshes(t, w, edits[..i]);
    } else {
      StaysGone(t, w, edits, i, k - 1);
      assert !IsSign(edits[k - 1], w);
    }
  }

  // ---- A sweep that read its clock too early -----------------------------------

  /**
   `cleanup_stale` reads the clock before it takes the lock. A heartbeat handled in
   between evicts its own worker whatever the timeout: order matters exactly here.
   */
  lemma BeatAfterTheClockWasRead(t: Table, w: string, at: Time, now: Time, timeout: nat)
    requires w in t
    ensures w in AfterEdits(t, [Heartbeat(w, at), Cleanup(now, timeout)]) <==> at <= now <= at + timeout
  {
    var edits := [Heartbeat(w, at), Cleanup(now, timeout)];
    assert edits[..1] == [Heartbeat(w, at)];
    assert edits[..1][..0] == [];
    assert AfterEdits(t, edits[..1]) == Edited(t, Heartbeat(w, at));
  }
}

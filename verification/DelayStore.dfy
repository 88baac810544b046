/**
 Delayed messages with one caller: the in-memory map, the Redis store that splits
 it into a payload hash and a score index, and how far the two agree.
 */
module DelayStore {
  import opened Messages

  /** A record of the write-ahead log. */
  datatype Record = Record(recordId: nat, message: EMessage, status: WalStatus)

  const MILLI: int := 1_000_000
  const I64_LIMIT: int := 0x8000_0000_0000_0000

  /** The truncating cast to a signed 64-bit integer. */
  function AsI64(n: nat): int {
    (n + I64_LIMIT) % (2 * I64_LIMIT) - I64_LIMIT
  }

  /** Whole milliseconds since the epoch; 0 for a time before it. */
  function Millis(t: Time): int {
    if t < 0 then 0 else AsI64(t / MILLI)
  }

  /** The score a record is indexed under. */
  function Score(m: EMessage): int {
    match m.deliverAt
    case Some(at) => Millis(at)
    case None => I64_LIMIT - 1
  }

  datatype Backend = Memory | Redis

  predicate Fires(b: Backend, m: EMessage, now: Time) {
    match b
    case Memory => m.deliverAt.Some? && m.deliverAt.value <= now
    case Redis => Score(m) <= Millis(now)
  }

  // ---- Rounding -------------------------------------------------------------

  /** Times the score represents faithfully. */
  predicate InRange(t: Time) {
    t < I64_LIMIT * MILLI
  }

  /** Whatever is due by the map is due by the score; what is extra is less than a millisecond early. */
  lemma RoundingOnlyHastens(m: EMessage, at: Time, now: Time)
    requires m.deliverAt == Some(at) && InRange(at) && InRange(now) && 0 <= now
    ensures Fires(Memory, m, now) ==> Fires(Redis, m, now)
    ensures Fires(Redis, m, now) ==> at < now + MILLI
    ensures Fires(Redis, m, now) ==> Fires(Memory, m, now + MILLI)
  {
  }

  lemma WithoutATimeNeverFires(b: Backend, m: EMessage, now: Time)
    requires m.deliverAt == None && now < (I64_LIMIT - 1) * MILLI
    ensures !Fires(b, m, now)
  {
  }

  /** From 2^63 up to 2^64 milliseconds the cast is negative, and the record fires whatever the clock says. */
  lemma BeyondTheRangeFiresAtOnce(m: EMessage, at: Time, now: Time)
    requires m.deliverAt == Some(at) && !InRange(at) && at < 2 * I64_LIMIT * MILLI
    requires InRange(now)
    ensures Fires(Redis, m, now)
  {
  }

  lemma CastRepeats(n: nat)
    ensures AsI64(n + 2 * I64_LIMIT) == AsI64(n)
  {
  }

  /** Later times wrap to the score of an earlier one: the same record fires when that one would. */
  lemma ScoresRepeat(m: EMessage, at: Time, now: Time)
    requires m.deliverAt == Some(at) && 0 <= at
    ensures Fires(Redis, m.(deliverAt := Some(at + 2 * I64_LIMIT * MILLI)), now) <==> Fires(Redis, m, now)
  {
    var later := at + 2 * I64_LIMIT * MILLI;
    assert later / MILLI == at / MILLI + 2 * I64_LIMIT;
    CastRepeats(at / MILLI);
    assert Millis(later) == Millis(at);
  }

  /** A record is never early, by a millisecond or more, at any clock in range exactly if its own time is in range. */
  lemma NeverEarlyExactlyInRange(m: EMessage, at: Time)
    requires m.deliverAt == Some(at)
    ensures (forall now :: 0 <= now && InRange(now) && Fires(Redis, m, now) ==> at < now + MILLI) <==> InRange(at)
  {
    if InRange(at) {
      forall now | 0 <= now && InRange(now) && Fires(Redis, m, now)
        ensures at < now + MILLI
      {
        RoundingOnlyHastens(m, at, now);
      }
    } else {
      var now := (I64_LIMIT - 1) * MILLI;
      assert Millis(now) == I64_LIMIT - 1;
      assert Fires(Redis, m, now);
    }
  }

  // ---- What a fetch answers and leaves --------------------------------------

  /** `ready` lists, once each, exactly the records that fire. */
  ghost predicate IsHarvest(b: Backend, delays: map<string, Record>, now: Time, ready: seq<Record>) {
    && (forall r :: r in ready ==> r.message.id in delays && delays[r.message.id] == r && Fires(b, r.message, now))
    && (forall id :: id in delays && Fires(b, delays[id].message, now) ==> delays[id] in ready)
    && (forall i, j :: 0 <= i < j < |ready| ==> ready[i].message.id != ready[j].message.id)
  }

  function Left(b: Backend, delays: map<string, Record>, now: Time): map<string, Record> {
    map id | id in delays && !Fires(b, delays[id].message, now) :: delays[id]
  }

  ghost predicate Filed(delays: map<string, Record>) {
    forall id :: id in delays ==> delays[id].message.id == id
  }

  ghost predicate ListsDue(b: Backend, delays: map<string, Record>, now: Time, due: seq<string>) {
    && (forall id :: id in due <==> id in delays && Fires(b, delays[id].message, now))
    && (forall i, j :: 0 <= i < j < |due| ==> due[i] != due[j])
  }

  lemma DueIsHarvest(b: Backend, delays: map<string, Record>, now: Time, due: seq<string>, ready: seq<Record>)
    requires Filed(delays) && ListsDue(b, delays, now, due) && |ready| == |due|
    requires forall j :: 0 <= j < |due| ==> due[j] in delays && ready[j] == delays[due[j]]
    ensures IsHarvest(b, delays, now, ready)
    ensures delays - (set k | k in due) == Left(b, delays, now)
  {
  }

  /** What a fetch answers is what it takes out of the store. */
  lemma HarvestIsDelivered(b: Backend, delays: map<string, Record>, now: Time, ready: seq<Record>)
    requires Filed(delays) && IsHarvest(b, delays, now, ready)
    ensures (set r | r in ready) == Do(b, Store(delays, 0, {}), Op.FetchReady(now)).delivered
  {
  }

  /** The first loop of a fetch from the map. */
  method FindDue(delays: map<string, Record>, now: Time) returns (ready: seq<Record>, ids: seq<string>)
    ensures ListsDue(Memory, delays, now, ids) && |ready| == |ids|
    ensures forall j :: 0 <= j < |ids| ==> ids[j] in delays && ready[j] == delays[ids[j]]
  {
    ready, ids := [], [];
    var left := delays.Keys;
    while left != {}
      invariant left <= delays.Keys && |ready| == |ids|
      invariant forall id :: id in ids <==> id in delays.Keys - left && Fires(Memory, delays[id].message, now)
      invariant forall i, j :: 0 <= i < j < |ids| ==> ids[i] != ids[j]
      invariant forall j :: 0 <= j < |ids| ==> ids[j] in delays && ready[j] == delays[ids[j]]
      decreases left
    {
      var id :| id in left;
      var at := delays[id].message.deliverAt;
      if at.Some? && at.value <= now {
        ready := ready + [delays[id]];
        ids := ids + [id];
      }
      left := left - {id};
    }
  }

  /** The second loop: what was found due leaves the map. */
  method RemoveAll(delays: map<string, Record>, ids: seq<string>) returns (rest: map<string, Record>)
    ensures rest == delays - (set k | k in ids)
  {
    rest := delays;
    for i := 0 to |ids|
      invariant rest == delays - (set k | k in ids[..i])
    {
      rest := rest - {ids[i]};
      assert ids[..i + 1] == ids[..i] + [ids[i]];
    }
    assert ids[..|ids|] == ids;
  }

  /** A fetch from the map, as the in-memory and the file-backed store do it. */
  method TakeDue(delays: map<string, Record>, now: Time) returns (ready: seq<Record>, rest: map<string, Record>)
    requires Filed(delays)
    ensures IsHarvest(Memory, delays, now, ready)
    ensures rest == Left(Memory, delays, now)
  {
    var ids;
    ready, ids := FindDue(delays, now);
    rest := RemoveAll(delays, ids);
    DueIsHarvest(Memory, delays, now, ids, ready);
  }

  class MemoryWal {
    var delays: map<string, Record>
    var counter: nat

    constructor ()
      ensures delays == map[] && counter == 0
    {
      delays := map[];
      counter := 0;
    }

    method Schedule(r: Record)
      modifies this
      ensures counter == old(counter) + 1
      ensures delays == old(delays)[r.message.id := r.(recordId := counter)]
      ensures Store(delays, counter, {}) == Do(Memory, Store(old(delays), old(counter), {}), Op.Schedule(r))
      ensures old(Filed(delays)) ==> Filed(delays)
    {
      counter := counter + 1;
      delays := delays[r.message.id := r.(recordId := counter)];
    }

    method FetchReady(now: Time) returns (ready: seq<Record>)
      requires Filed(delays)
      modifies this`delays
      ensures IsHarvest(Memory, old(delays), now, ready)
      ensures delays == Left(Memory, old(delays), now) && Filed(delays)
      ensures Store(delays, counter, set r | r in ready) == Do(Memory, Store(old(delays), counter, {}), Op.FetchReady(now))
    {
      ready, delays := TakeDue(delays, now);
      HarvestIsDelivered(Memory, old(delays), now, ready);
    }

    method RemoveScheduled(id: string)
      modifies this`delays
      ensures delays == old(delays) - {id}
      ensures Store(delays, counter, {}) == Do(Memory, Store(old(delays), counter, {}), Op.RemoveScheduled(id))
    {
      delays := delays - {id};
    }
  }

  /** The Redis store as its only caller sees it: nothing happens between two of its commands. */
  class RedisWal {
    var payload: map<string, Record>
    var index: map<string, int>
    var counter: nat

    ghost predicate Valid()
      reads this
    {
      && Filed(payload)
      && index == map id | id in payload :: Score(payload[id].message)
    }

    constructor ()
      ensures Valid() && payload == map[] && counter == 0
    {
      payload := map[];
      index := map[];
      counter := 0;
    }

    method Schedule(r: Record)
      requires Valid()
      modifies this
      ensures Valid() && counter == old(counter) + 1
      ensures payload == old(payload)[r.message.id := r.(recordId := counter)]
      ensures Store(payload, counter, {}) == Do(Redis, Store(old(payload), old(counter), {}), Op.Schedule(r))
    {
      counter := counter + 1;
      payload := payload[r.message.id := r.(recordId := counter)];
      index := index[r.message.id := Score(r.message)];
    }

    /** The members of the index whose score is at most `score`, once each. */
    method RangeByScore(score: int) returns (due: seq<string>)
      ensures forall id :: id in due <==> id in index && index[id] <= score
      ensures forall i, j :: 0 <= i < j < |due| ==> due[i] != due[j]
    {
      due := [];
      var left := index.Keys;
      while left != {}
        invariant left <= index.Keys
        invariant forall id :: id in due <==> id in index.Keys - left && index[id] <= score
        invariant forall i, j :: 0 <= i < j < |due| ==> due[i] != due[j]
        decreases left
      {
        var id :| id in left;
        if index[id] <= score {
          due := due + [id];
        }
        left := left - {id};
      }
    }

    /** ZREM, and for the caller it answers 1, HGET and HDEL. */
    method Pop(id: string) returns (r: Option<Record>)
      requires Valid()
      modifies this`payload, this`index
      ensures Valid() && payload == old(payload) - {id}
      ensures r == if id in old(payload) then Some(old(payload)[id]) else None
    {
      var claimed := id in index;
      index := index - {id};
      r := None;
      if claimed {
        r := if id in payload then Some(payload[id]) else None;
        payload := payload - {id};
      }
    }

    method FetchReady(now: Time) returns (ready: seq<Record>)
      requires Valid()
      modifies this`payload, this`index
      ensures Valid()
      ensures IsHarvest(Redis, old(payload), now, ready)
      ensures payload == Left(Redis, old(payload), now)
      ensures Store(payload, counter, set r | r in ready) == Do(Redis, Store(old(payload), counter, {}), Op.FetchReady(now))
    {
      var due := RangeByScore(Millis(now));
      ghost var was := payload;
      assert ListsDue(Redis, was, now, due);
      ready := [];
      for i := 0 to |due|
        invariant Valid() && payload == was - (set k | k in due[..i])
        invariant |ready| == i && forall j :: 0 <= j < i ==> ready[j] == was[due[j]]
      {
        assert due[i] !in due[..i] && due[i] in due;
        var r := Pop(due[i]);
        if r.Some? {
          ready := ready + [r.value];
        }
        assert due[..i + 1] == due[..i] + [due[i]];
      }
      assert due[..|due|] == due;
      DueIsHarvest(Redis, was, now, due, ready);
      HarvestIsDelivered(Redis, was, now, ready);
    }

    method RemoveScheduled(id: string)
      requires Valid()
      modifies this`payload, this`index
      ensures Valid() && payload == old(payload) - {id}
      ensures Store(payload, counter, {}) == Do(Redis, Store(old(payload), counter, {}), Op.RemoveScheduled(id))
    {
      index := index - {id};
      payload := payload - {id};
    }
  }

  // ---- The two stores over the same calls -----------------------------------

  datatype Op = Schedule(r: Record) | FetchReady(now: Time) | RemoveScheduled(id: string)

  datatype Store = Store(delays: map<string, Record>, counter: nat, delivered: set<Record>)

  function Do(b: Backend, s: Store, op: Op): Store {
    match op
    case Schedule(r) =>
      s.(delays := s.delays[r.message.id := r.(recordId := s.counter + 1)], counter := s.counter + 1)
    case FetchReady(now) =>
      s.(delays := Left(b, s.delays, now),
         delivered := s.delivered + (set id | id in s.delays && Fires(b, s.delays[id].message, now) :: s.delays[id]))
    case RemoveScheduled(id) => s.(delays := s.delays - {id})
  }

  function After(b: Backend, ops: seq<Op>): Store {
    if ops == [] then Store(map[], 0, {}) else Do(b, After(b, ops[..|ops| - 1]), ops[|ops| - 1])
  }

  /** What is in the store under `id` is the record scheduled by the `k`-th call. */
  ghost predicate StillStored(b: Backend, ops: seq<Op>, k: nat, id: string) {
    && k < |ops| && ops[k].Schedule? && ops[k].r.message.id == id
    && forall j :: k < j < |ops| ==> !Ends(b, ops[j], ops[k].r)
  }

  /** The call replaces, removes or delivers what was scheduled as `r`. */
  predicate Ends(b: Backend, op: Op, r: Record) {
    match op
    case Schedule(other) => other.message.id == r.message.id
    case FetchReady(now) => Fires(b, r.message, now)
    case RemoveScheduled(id) => id == r.message.id
  }

  function Schedules(ops: seq<Op>): nat {
    if ops == [] then 0 else Schedules(ops[..|ops| - 1]) + if ops[|ops| - 1].Schedule? then 1 else 0
  }

  lemma {:induction false} CounterCounts(b: Backend, ops: seq<Op>)
    ensures After(b, ops).counter == Schedules(ops)
  {
    if ops != [] {
      CounterCounts(b, ops[..|ops| - 1]);
    }
  }

  lemma StillStoredGrows(b: Backend, front: seq<Op>, op: Op, k: nat, id: string)
    requires k < |front|
    ensures StillStored(b, front + [op], k, id) <==> StillStored(b, front, k, id) && !Ends(b, op, front[k].r)
  {
    var ops := front + [op];
    assert ops[|front|] == op && ops[k] == front[k];
    assert forall j :: 0 <= j < |front| ==> ops[j] == front[j];
  }

  lemma LastStored(b: Backend, front: seq<Op>, op: Op, id: string) returns (k: nat)
    requires id in After(b, front + [op]).delays
    requires id in After(b, front).delays ==>
               exists k :: StillStored(b, front, k, id) && StoredAs(b, front, k, id)
    ensures StillStored(b, front + [op], k, id) && StoredAs(b, front + [op], k, id)
  {
    var ops := front + [op];
    assert ops[..|front|] == front && ops[|front|] == op;
    CounterCounts(b, front);
    if op.Schedule? && op.r.message.id == id {
      k := |front|;
      assert ops[..k + 1] == ops;
    } else {
      k :| StillStored(b, front, k, id) && StoredAs(b, front, k, id);
      StillStoredGrows(b, front, op, k, id);
      assert ops[..k + 1] == front[..k + 1];
    }
  }

  /** The record under `id` is the one the `k`-th call scheduled, numbered by how many there were. */
  ghost predicate StoredAs(b: Backend, ops: seq<Op>, k: nat, id: string) {
    && k < |ops| && ops[k].Schedule? && id in After(b, ops).delays
    && After(b, ops).delays[id] == ops[k].r.(recordId := Schedules(ops[..k + 1]))
  }

  lemma {:induction false} StoredWasScheduled(b: Backend, ops: seq<Op>, id: string) returns (k: nat)
    requires id in After(b, ops).delays
    ensures StillStored(b, ops, k, id) && StoredAs(b, ops, k, id)
  {
    if ops != [] {
      var front, op := ops[..|ops| - 1], ops[|ops| - 1];
      assert front + [op] == ops;
      if id in After(b, front).delays {
        k := StoredWasScheduled(b, front, id);
      }
      k := LastStored(b, front, op, id);
    }
  }

  lemma {:induction false} ScheduledIsStored(b: Backend, ops: seq<Op>, k: nat, id: string)
    requires StillStored(b, ops, k, id)
    ensures StoredAs(b, ops, k, id)
  {
    var front, op := ops[..|ops| - 1], ops[|ops| - 1];
    CounterCounts(b, front);
    if k == |front| {
      assert ops[..k + 1] == ops;
    } else {
      assert front + [op] == ops;
      StillStoredGrows(b, front, op, k, id);
      ScheduledIsStored(b, front, k, id);
      assert ops[..k + 1] == front[..k + 1];
    }
  }

  /**
   After any calls a store of either kind holds under an id exactly the record last
   scheduled under it, numbered in turn, unless it was removed or due at a fetch since.
   */
  lemma HoldsExactlyWhatWasScheduled(b: Backend, ops: seq<Op>, id: string)
    ensures id in After(b, ops).delays <==> exists k :: StillStored(b, ops, k, id)
    ensures forall k :: StillStored(b, ops, k, id) ==> StoredAs(b, ops, k, id)
  {
    if id in After(b, ops).delays {
      var k := StoredWasScheduled(b, ops, id);
    }
    forall k | StillStored(b, ops, k, id)
      ensures StoredAs(b, ops, k, id)
    {
      ScheduledIsStored(b, ops, k, id);
    }
  }

  /** The fetch at `k` found the record in the store, due. */
  ghost predicate FoundDue(b: Backend, ops: seq<Op>, k: nat, r: Record) {
    && k < |ops| && ops[k].FetchReady? && Fires(b, r.message, ops[k].now)
    && r in After(b, ops[..k]).delays.Values
  }

  /** What has been delivered is exactly what some fetch found in the store, due. */
  lemma {:induction false} DeliveredExactlyWhenFoundDue(b: Backend, ops: seq<Op>, r: Record)
    ensures r in After(b, ops).delivered <==> exists k :: FoundDue(b, ops, k, r)
  {
    if ops != [] {
      var n := |ops| - 1;
      DeliveredExactlyWhenFoundDue(b, ops[..n], r);
      if k: nat :| FoundDue(b, ops[..n], k, r) {
        assert ops[..n][..k] == ops[..k];
        assert FoundDue(b, ops, k, r);
      }
      if k: nat :| FoundDue(b, ops, k, r) {
        if k < n {
          assert ops[..n][..k] == ops[..k];
          assert FoundDue(b, ops[..n], k, r);
        }
      }
      if r in After(b, ops).delivered && r !in After(b, ops[..n]).delivered {
        assert FoundDue(b, ops, n, r);
      }
    }
  }

  predicate OpInRange(op: Op) {
    match op
    case Schedule(r) => r.message.deliverAt.Some? ==> InRange(r.message.deliverAt.value)
    case FetchReady(now) => 0 <= now && InRange(now)
    case RemoveScheduled(_) => true
  }

  ghost predicate Timely(s: Store) {
    forall id :: id in s.delays && s.delays[id].message.deliverAt.Some? ==> InRange(s.delays[id].message.deliverAt.value)
  }

  /** The Redis store holds no more than the map, and has delivered whatever it no longer holds. */
  ghost predicate Ahead(memory: Store, redis: Store) {
    && memory.counter == redis.counter
    && memory.delivered <= redis.delivered
    && (forall id :: id in redis.delays ==> id in memory.delays && memory.delays[id] == redis.delays[id])
    && (forall id :: id in memory.delays && id !in redis.delays ==> memory.delays[id] in redis.delivered)
  }

  lemma StepKeepsAhead(memory: Store, redis: Store, op: Op)
    requires Ahead(memory, redis) && Timely(memory) && OpInRange(op)
    ensures Ahead(Do(Memory, memory, op), Do(Redis, redis, op))
    ensures Timely(Do(Memory, memory, op))
  {
    if op.FetchReady? {
      forall id | id in memory.delays && Fires(Memory, memory.delays[id].message, op.now)
        ensures Fires(Redis, memory.delays[id].message, op.now)
      {
        RoundingOnlyHastens(memory.delays[id].message, memory.delays[id].message.deliverAt.value, op.now);
      }
    }
  }

  /** Less than a millisecond before its time; without a time, only in the last millisecond of the clock. */
  predicate NotEarly(m: EMessage, now: Time) {
    match m.deliverAt
    case Some(at) => at < now + MILLI
    case None => (I64_LIMIT - 1) * MILLI <= now
  }

  /** The `k`-th call is a fetch that found the record in the store, and not early. */
  ghost predicate TakenInTime(ops: seq<Op>, k: nat, r: Record)
    requires k < |ops|
  {
    && ops[k].FetchReady? && NotEarly(r.message, ops[k].now)
    && r.message.id in After(Redis, ops[..k]).delays && After(Redis, ops[..k]).delays[r.message.id] == r
  }

  ghost predicate InTime(ops: seq<Op>, r: Record) {
    exists k :: 0 <= k < |ops| && TakenInTime(ops, k, r)
  }

  lemma FiringIsNotEarly(m: EMessage, now: Time)
    requires 0 <= now && InRange(now) && (m.deliverAt.Some? ==> InRange(m.deliverAt.value)) && Fires(Redis, m, now)
    ensures NotEarly(m, now)
  {
    if m.deliverAt.Some? {
      RoundingOnlyHastens(m, m.deliverAt.value, now);
    } else if now < (I64_LIMIT - 1) * MILLI {
      WithoutATimeNeverFires(Redis, m, now);
    }
  }

  /** What one more call delivers, it delivers in time; what was in time before still is. */
  lemma LastCallInTime(ops: seq<Op>, r: Record)
    requires ops != [] && OpInRange(ops[|ops| - 1])
    requires Timely(After(Redis, ops[..|ops| - 1])) && Filed(After(Redis, ops[..|ops| - 1]).delays)
    requires r in After(Redis, ops).delivered
    requires r in After(Redis, ops[..|ops| - 1]).delivered ==> InTime(ops[..|ops| - 1], r)
    ensures InTime(ops, r)
  {
    var front, last := ops[..|ops| - 1], ops[|ops| - 1];
    if r in After(Redis, front).delivered {
      var k :| 0 <= k < |front| && TakenInTime(front, k, r);
      assert front[..k] == ops[..k];
      assert TakenInTime(ops, k, r);
    } else {
      FiringIsNotEarly(r.message, last.now);
      assert TakenInTime(ops, |ops| - 1, r);
    }
  }

  lemma RedisStepKeeps(s: Store, op: Op)
    requires Timely(s) && Filed(s.delays) && OpInRange(op)
    ensures Timely(Do(Redis, s, op)) && Filed(Do(Redis, s, op).delays)
  {
  }

  lemma {:induction false} RedisStaysTimely(ops: seq<Op>)
    requires forall op :: op in ops ==> OpInRange(op)
    ensures Timely(After(Redis, ops)) && Filed(After(Redis, ops).delays)
  {
    if ops != [] {
      RedisStaysTimely(ops[..|ops| - 1]);
      RedisStepKeeps(After(Redis, ops[..|ops| - 1]), ops[|ops| - 1]);
    }
  }

  lemma {:induction false} RedisIsInTime(ops: seq<Op>, r: Record)
    requires forall op :: op in ops ==> OpInRange(op)
    requires r in After(Redis, ops).delivered
    ensures InTime(ops, r)
  {
    var front := ops[..|ops| - 1];
    RedisStaysTimely(front);
    if r in After(Redis, front).delivered {
      RedisIsInTime(front, r);
    }
    LastCallInTime(ops, r);
  }

  lemma {:induction false} RedisStaysAhead(ops: seq<Op>)
    requires forall op :: op in ops ==> OpInRange(op)
    ensures Ahead(After(Memory, ops), After(Redis, ops)) && Timely(After(Memory, ops))
  {
    if ops != [] {
      RedisStaysAhead(ops[..|ops| - 1]);
      StepKeepsAhead(After(Memory, ops[..|ops| - 1]), After(Redis, ops[..|ops| - 1]), ops[|ops| - 1]);
    }
  }

  /**
   Over any calls, whatever the map has delivered the Redis store has delivered by
   then, and whatever the Redis store has delivered some fetch took less than a
   millisecond before its time.
   */
  lemma RedisKeepsUpWithMemory(ops: seq<Op>, r: Record)
    requires forall op :: op in ops ==> OpInRange(op)
    ensures Ahead(After(Memory, ops), After(Redis, ops))
    ensures r in After(Redis, ops).delivered ==> InTime(ops, r)
  {
    RedisStaysAhead(ops);
    if r in After(Redis, ops).delivered {
      RedisIsInTime(ops, r);
    }
  }
}

/**
 One topic stream and its consumer group on Redis, without trimming. Each Redis
 command is one step; any number of consumers interleave theirs, fail between two
 of them, or crash.
 */
module RedisStream {
  import opened Messages

  /** A stream entry: a message, bytes that do not decode, or something without the message field. */
  datatype Entry = Msg(m: EMessage) | Undecodable | Foreign

  datatype Found = Found(entry: nat, m: EMessage)

  /** Where a consumer is between two commands of a call. */
  datatype Call =
    | Idle
    | Reading(todo: seq<nat>, out: seq<Found>, stale: bool)   // reply of XREADGROUP, or of XAUTOCLAIM when stale
    | Acking(entry: nat)
    | Nacking(entry: nat, m: EMessage)
    | Requeued(entry: nat, copy: nat)                          // nack: XADD done, XACK to come

  datatype Consumer = Consumer(pending: map<string, Found>, call: Call)

  /**
   Entries are numbered as added; the group has handed out those below `delivered`
   and still holds those in `pel` for their consumer. The last three fields are
   history: entries released by `ack`, entries thrown away unread, and nacked
   entries with the copy that replaced them.
   */
  datatype State = State(
    stream: seq<Entry>,
    delivered: nat,
    pel: map<nat, string>,
    consumers: map<string, Consumer>,
    acked: set<nat>,
    discarded: set<nat>,
    copies: map<nat, nat>)

  datatype Step =
    | Produce(entry: Entry)
    | Join(c: string)
    | Crash(c: string)
    | Read(c: string, count: nat)
    | Autoclaim(c: string, idle: seq<nat>)
    | Look(c: string, ok: bool)
    | Claim(c: string, claimId: string)
    | Pop(c: string)
    | BeginAck(c: string, claimId: string)
    | BeginNack(c: string, claimId: string)
    | Add(c: string)
    | Xack(c: string)
    | GiveUp(c: string)

  predicate IsIdle(s: State, c: string) {
    c in s.consumers && s.consumers[c].call.Idle?
  }

  predicate Enabled(s: State, step: Step) {
    match step
    case Produce(_) => true
    case Join(c) => c !in s.consumers
    case Crash(c) => c in s.consumers
    case Read(c, count) => IsIdle(s, c) && s.delivered + count <= |s.stream|
    case Autoclaim(c, idle) => IsIdle(s, c) && forall e :: e in idle ==> e in s.pel
    case Look(c, _) =>
      && c in s.consumers && s.consumers[c].call.Reading? && s.consumers[c].call.todo != []
      && s.consumers[c].call.todo[0] < |s.stream|
    case Claim(c, id) =>
      && c in s.consumers && s.consumers[c].call.Reading? && id !in s.consumers[c].pending
      && s.consumers[c].call.todo == [] && s.consumers[c].call.out != []
    case Pop(c) =>
      && c in s.consumers && s.consumers[c].call.Reading? && !s.consumers[c].call.stale
      && s.consumers[c].call.todo == [] && |s.consumers[c].call.out| == 1
    case BeginAck(c, id) => IsIdle(s, c) && id in s.consumers[c].pending
    case BeginNack(c, id) => IsIdle(s, c) && id in s.consumers[c].pending
    case Add(c) => c in s.consumers && s.consumers[c].call.Nacking?
    case Xack(c) => c in s.consumers && (s.consumers[c].call.Acking? || s.consumers[c].call.Requeued?)
    case GiveUp(c) => c in s.consumers
  }

  function Calling(s: State, c: string, call: Call): map<string, Consumer>
    requires c in s.consumers
  {
    s.consumers[c := s.consumers[c].(call := call)]
  }

  /** Releases an entry from the group; `ok` is false when the command fails and its error is ignored. */
  function Released(pel: map<nat, string>, e: nat, ok: bool): map<nat, string> {
    if ok then pel - {e} else pel
  }

  function Handed(pel: map<nat, string>, entries: seq<nat>, c: string): map<nat, string> {
    pel + (map e | e in entries :: c)
  }

  function From(first: nat, count: nat): seq<nat> {
    seq(count, i requires 0 <= i < count => first + i)
  }

  /** One entry of a reply: messages are kept, the rest is acknowledged, skipped or ends the call. */
  function Looked(s: State, c: string, ok: bool): State
    requires Enabled(s, Look(c, ok))
  {
    var call := s.consumers[c].call;
    var e := call.todo[0];
    var on := call.(todo := call.todo[1..]);
    match s.stream[e]
    case Msg(m) => s.(consumers := Calling(s, c, on.(out := call.out + [Found(e, m)])))
    case Foreign =>
      if call.stale then s.(consumers := Calling(s, c, on))
      else Discard(s.(consumers := Calling(s, c, on)), e, ok)
    case Undecodable =>
      if call.stale then Discard(s.(consumers := Calling(s, c, on)), e, ok)
      else s.(consumers := Calling(s, c, Idle))
  }

  function Discard(s: State, e: nat, ok: bool): State {
    s.(pel := Released(s.pel, e, ok), discarded := if ok && e in s.pel then s.discarded + {e} else s.discarded)
  }

  /** XACK by `ack` or `nack`; an entry no longer pending is left alone. */
  function Acknowledged(s: State, c: string): State
    requires Enabled(s, Xack(c))
  {
    var call := s.consumers[c].call;
    var s' := s.(pel := s.pel - {call.entry}, consumers := Calling(s, c, Idle));
    if call.entry !in s.pel then s'
    else if call.Acking? then s'.(acked := s.acked + {call.entry})
    else s'.(copies := s.copies[call.entry := call.copy])
  }

  /** `GiveUp` ends a call: it returned, or a command failed. */
  function Next(s: State, step: Step): State
    requires Enabled(s, step)
  {
    match step
    case Produce(entry) => s.(stream := s.stream + [entry])
    case Join(c) => s.(consumers := s.consumers[c := Consumer(map[], Idle)])
    case Crash(c) => s.(consumers := s.consumers - {c})
    case Read(c, count) =>
      s.(delivered := s.delivered + count,
         pel := Handed(s.pel, From(s.delivered, count), c),
         consumers := Calling(s, c, Reading(From(s.delivered, count), [], false)))
    case Autoclaim(c, idle) =>
      s.(pel := Handed(s.pel, idle, c), consumers := Calling(s, c, Reading(idle, [], true)))
    case Look(c, ok) => Looked(s, c, ok)
    case Claim(c, id) =>
      var con := s.consumers[c];
      s.(consumers := s.consumers[c := Consumer(con.pending[id := con.call.out[0]], con.call.(out := con.call.out[1..]))])
    case Pop(c) =>
      var e := s.consumers[c].call.out[0].entry;
      s.(pel := s.pel - {e}, acked := if e in s.pel then s.acked + {e} else s.acked, consumers := Calling(s, c, Idle))
    case BeginAck(c, id) =>
      var con := s.consumers[c];
      s.(consumers := s.consumers[c := Consumer(con.pending - {id}, Acking(con.pending[id].entry))])
    case BeginNack(c, id) =>
      var con := s.consumers[c];
      s.(consumers := s.consumers[c := Consumer(con.pending - {id}, Nacking(con.pending[id].entry, con.pending[id].m))])
    case Add(c) =>
      var call := s.consumers[c].call;
      s.(stream := s.stream + [Msg(call.m)], consumers := Calling(s, c, Requeued(call.entry, |s.stream|)))
    case Xack(c) => Acknowledged(s, c)
    case GiveUp(c) => s.(consumers := Calling(s, c, Idle))
  }

  // ---- What every consumer knows ----------------------------------------------

  predicate Holds(stream: seq<Entry>, delivered: nat, f: Found) {
    f.entry < delivered <= |stream| && stream[f.entry] == Msg(f.m)
  }

  ghost predicate CallOk(stream: seq<Entry>, delivered: nat, call: Call) {
    match call
    case Idle => true
    case Reading(todo, out, _) =>
      (forall e :: e in todo ==> e < delivered) && (forall f :: f in out ==> Holds(stream, delivered, f))
    case Acking(e) => e < delivered
    case Nacking(e, m) => Holds(stream, delivered, Found(e, m))
    case Requeued(e, copy) =>
      e < delivered && e < copy < |stream| && stream[copy] == stream[e]
  }

  ghost predicate ConsumerOk(stream: seq<Entry>, delivered: nat, con: Consumer) {
    && delivered <= |stream|
    && CallOk(stream, delivered, con.call)
    && (forall id :: id in con.pending ==> Holds(stream, delivered, con.pending[id]))
  }

  ghost predicate ConsumersOk(s: State) {
    && s.delivered <= |s.stream|
    && (forall c :: c in s.consumers ==> ConsumerOk(s.stream, s.delivered, s.consumers[c]))
  }

  /** Every entry handed out is in exactly one of: pending, acked, discarded, replaced by a copy. */
  ghost predicate LedgerAt(s: State, e: nat) {
    && (e < s.delivered <==> e in s.pel || e in s.acked || e in s.discarded || e in s.copies)
    && !(e in s.pel && (e in s.acked || e in s.discarded || e in s.copies))
    && !(e in s.acked && (e in s.discarded || e in s.copies))
    && !(e in s.discarded && e in s.copies)
    && (e in s.discarded ==> e < |s.stream| && !s.stream[e].Msg?)
    && (e in s.copies ==> e < s.copies[e] < |s.stream| && s.stream[s.copies[e]] == s.stream[e])
  }

  ghost predicate StepAt(states: seq<State>, steps: seq<Step>, i: nat)
    requires |states| == |steps| + 1 && i < |steps|
  {
    Enabled(states[i], steps[i]) && states[i + 1] == Next(states[i], steps[i])
  }

  /** A run from a stream nobody has read yet. */
  ghost predicate IsRun(states: seq<State>, steps: seq<Step>) {
    && |states| == |steps| + 1
    && states[0] == State(states[0].stream, 0, map[], map[], {}, {}, map[])
    && forall i :: 0 <= i < |steps| ==> StepAt(states, steps, i)
  }

  // ---- Consumers ----------------------------------------------------------------

  predicate By(step: Step, c: string) {
    !step.Produce? && step.c == c
  }

  lemma StreamGrows(s: State, step: Step)
    requires Enabled(s, step) && s.delivered <= |s.stream|
    ensures s.stream <= Next(s, step).stream
    ensures s.delivered <= Next(s, step).delivered <= |Next(s, step).stream|
  {
  }

  lemma OthersStay(s: State, step: Step, c: string)
    requires Enabled(s, step) && !By(step, c)
    ensures c in Next(s, step).consumers <==> c in s.consumers
    ensures c in s.consumers ==> Next(s, step).consumers[c] == s.consumers[c]
  {
  }

  lemma GrowthKeepsConsumer(stream: seq<Entry>, delivered: nat, stream': seq<Entry>, delivered': nat, con: Consumer)
    requires ConsumerOk(stream, delivered, con)
    requires stream <= stream' && delivered <= delivered' <= |stream'|
    ensures ConsumerOk(stream', delivered', con)
  {
  }

  lemma FromBelow(first: nat, count: nat)
    ensures forall e :: e in From(first, count) <==> first <= e < first + count
  {
    forall e | first <= e < first + count
      ensures e in From(first, count)
    {
      assert From(first, count)[e - first] == e;
    }
  }

  lemma ReplyStaysOk(s: State, c: string, ok: bool)
    requires Enabled(s, Look(c, ok)) && ConsumersOk(s)
    ensures CallOk(s.stream, s.delivered, Looked(s, c, ok).consumers[c].call)
  {
    var call := s.consumers[c].call;
    assert ConsumerOk(s.stream, s.delivered, s.consumers[c]);
    assert call.todo[0] in call.todo;
    assert forall e :: e in call.todo[1..] ==> e in call.todo;
  }

  lemma CallStaysOk(s: State, step: Step)
    requires Enabled(s, step) && !step.Produce? && step.c in s.consumers && ConsumersOk(s)
    requires step.Autoclaim? ==> forall e :: e in step.idle ==> e < s.delivered
    requires step.c in Next(s, step).consumers
    ensures CallOk(Next(s, step).stream, Next(s, step).delivered, Next(s, step).consumers[step.c].call)
  {
    assert ConsumerOk(s.stream, s.delivered, s.consumers[step.c]);
    match step
    case Read(_, count) => FromBelow(s.delivered, count);
    case Look(c, ok) => ReplyStaysOk(s, c, ok);
    case BeginNack(c, id) => assert Holds(s.stream, s.delivered, s.consumers[c].pending[id]);
    case BeginAck(c, id) => assert Holds(s.stream, s.delivered, s.consumers[c].pending[id]);
    case _ =>
  }

  lemma PendingStaysOk(s: State, step: Step, id: string)
    requires Enabled(s, step) && !step.Produce? && step.c in s.consumers && ConsumersOk(s)
    requires step.c in Next(s, step).consumers && id in Next(s, step).consumers[step.c].pending
    ensures Holds(Next(s, step).stream, Next(s, step).delivered, Next(s, step).consumers[step.c].pending[id])
  {
    var con := s.consumers[step.c];
    assert ConsumerOk(s.stream, s.delivered, con);
    StreamGrows(s, step);
    if step.Claim? && step.claimId == id {
      assert con.call.out[0] in con.call.out;
    } else {
      assert id in con.pending && Next(s, step).consumers[step.c].pending[id] == con.pending[id];
    }
  }

  lemma ActorStaysOk(s: State, step: Step)
    requires Enabled(s, step) && !step.Produce? && ConsumersOk(s)
    requires step.Autoclaim? ==> forall e :: e in step.idle ==> e < s.delivered
    requires step.c in Next(s, step).consumers
    ensures ConsumerOk(Next(s, step).stream, Next(s, step).delivered, Next(s, step).consumers[step.c])
  {
    StreamGrows(s, step);
    if step.c in s.consumers {
      CallStaysOk(s, step);
      forall id | id in Next(s, step).consumers[step.c].pending
        ensures Holds(Next(s, step).stream, Next(s, step).delivered, Next(s, step).consumers[step.c].pending[id])
      {
        PendingStaysOk(s, step, id);
      }
    }
  }

  lemma StepKeepsConsumers(s: State, step: Step)
    requires Enabled(s, step) && ConsumersOk(s)
    requires step.Autoclaim? ==> forall e :: e in step.idle ==> e < s.delivered
    ensures ConsumersOk(Next(s, step))
  {
    var s' := Next(s, step);
    StreamGrows(s, step);
    forall c | c in s'.consumers
      ensures ConsumerOk(s'.stream, s'.delivered, s'.consumers[c])
    {
      if By(step, c) {
        ActorStaysOk(s, step);
      } else {
        OthersStay(s, step, c);
        GrowthKeepsConsumer(s.stream, s.delivered, s'.stream, s'.delivered, s.consumers[c]);
      }
    }
  }

  // ---- The ledger -----------------------------------------------------------------

  lemma ReadKeepsLedger(s: State, c: string, count: nat, e: nat)
    requires Enabled(s, Read(c, count)) && s.delivered <= |s.stream| && LedgerAt(s, e)
    ensures LedgerAt(Next(s, Read(c, count)), e)
  {
    FromBelow(s.delivered, count);
  }

  /** Only what is no message is discarded. */
  lemma LookKeepsLedger(s: State, c: string, ok: bool, e: nat)
    requires Enabled(s, Look(c, ok)) && LedgerAt(s, e)
    ensures LedgerAt(Looked(s, c, ok), e)
  {
  }

  lemma XackKeepsLedger(s: State, c: string, e: nat)
    requires Enabled(s, Xack(c)) && CallOk(s.stream, s.delivered, s.consumers[c].call) && LedgerAt(s, e)
    ensures LedgerAt(Acknowledged(s, c), e)
  {
  }

  lemma StepKeepsLedger(s: State, step: Step, e: nat)
    requires Enabled(s, step) && ConsumersOk(s) && LedgerAt(s, e)
    requires step.Autoclaim? ==> forall e :: e in step.idle ==> e < s.delivered
    ensures LedgerAt(Next(s, step), e)
  {
    match step
    case Read(c, count) => ReadKeepsLedger(s, c, count, e);
    case Look(c, ok) => LookKeepsLedger(s, c, ok, e);
    case Xack(c) =>
      assert ConsumerOk(s.stream, s.delivered, s.consumers[c]);
      XackKeepsLedger(s, c, e);
    case _ =>
  }

  ghost predicate Inv(s: State) {
    ConsumersOk(s) && forall e: nat :: LedgerAt(s, e)
  }

  lemma StepKeepsInv(s: State, step: Step)
    requires Enabled(s, step) && Inv(s)
    ensures Inv(Next(s, step))
  {
    if step.Autoclaim? {
      forall e | e in step.idle
        ensures e < s.delivered
      {
        assert LedgerAt(s, e);
      }
    }
    StepKeepsConsumers(s, step);
    forall e: nat
      ensures LedgerAt(Next(s, step), e)
    {
      StepKeepsLedger(s, step, e);
    }
  }

  lemma {:induction false} RunKeepsInv(states: seq<State>, steps: seq<Step>, n: nat)
    requires IsRun(states, steps) && n < |states|
    ensures Inv(states[n])
  {
    if n > 0 {
      assert StepAt(states, steps, n - 1);
      RunKeepsInv(states, steps, n - 1);
      StepKeepsInv(states[n - 1], steps[n - 1]);
    }
  }

  // ---- The main results --------------------------------------------------------------

  /** A delivered message entry is pending at one consumer, or acked, or replaced: exactly one of the three. */
  lemma DeliveredIsPendingOrReleased(states: seq<State>, steps: seq<Step>, n: nat, e: nat)
    requires IsRun(states, steps) && n < |states|
    requires e < states[n].delivered
    ensures
      var s := states[n];
      && e < |s.stream|
      && (s.stream[e].Msg? ==>
            && e !in s.discarded
            && (e in s.pel || e in s.acked || e in s.copies)
            && !(e in s.pel && e in s.acked) && !(e in s.pel && e in s.copies) && !(e in s.acked && e in s.copies))
  {
    RunKeepsInv(states, steps, n);
    assert LedgerAt(states[n], e);
  }

  /** An entry whose message is still to be read, still pending, or done. */
  predicate Survives(s: State, e: nat) {
    e >= s.delivered || e in s.pel || e in s.acked
  }

  /** `f` stands for `e` after some number of nacks. */
  ghost predicate StandsFor(s: State, f: nat, e: nat)
    decreases f - e
  {
    f == e || (e < f && e in s.copies && e < s.copies[e] <= f && StandsFor(s, f, s.copies[e]))
  }

  lemma {:induction false} Survivor(s: State, e: nat) returns (f: nat)
    requires Inv(s) && e < |s.stream| && s.stream[e].Msg?
    ensures e <= f < |s.stream| && s.stream[f] == s.stream[e] && StandsFor(s, f, e) && Survives(s, f)
    decreases |s.stream| - e
  {
    assert LedgerAt(s, e);
    if Survives(s, e) {
      f := e;
    } else {
      f := Survivor(s, s.copies[e]);
    }
  }

  /**
   No nack, reclaim, failure or crash ever loses the last copy: every message on the
   stream is, itself or as the copy that stands for it, unread, pending or acked.
   */
  lemma LastCopyIsNeverLost(states: seq<State>, steps: seq<Step>, n: nat, e: nat) returns (f: nat)
    requires IsRun(states, steps) && n < |states|
    requires e < |states[n].stream| && states[n].stream[e].Msg?
    ensures f < |states[n].stream| && states[n].stream[f] == states[n].stream[e]
    ensures StandsFor(states[n], f, e) && Survives(states[n], f)
  {
    RunKeepsInv(states, steps, n);
    f := Survivor(states[n], e);
  }

  // ---- What each call comes to -------------------------------------------------------

  /** The state after these steps, if they can all be taken. */
  function After(s: State, steps: seq<Step>): Option<State> {
    if steps == [] then Some(s)
    else
      match After(s, steps[..|steps| - 1])
      case None => None
      case Some(t) => if Enabled(t, steps[|steps| - 1]) then Some(Next(t, steps[|steps| - 1])) else None
  }

  lemma OneMore(s: State, done: seq<Step>, t: State, step: Step)
    requires After(s, done) == Some(t) && Enabled(t, step)
    ensures After(s, done + [step]) == Some(Next(t, step))
  {
    assert (done + [step])[..|done|] == done;
  }

  lemma ThreeSteps(s: State, a: Step, b: Step, c: Step)
    requires Enabled(s, a) && Enabled(Next(s, a), b) && Enabled(Next(Next(s, a), b), c)
    ensures After(s, [a, b, c]) == Some(Next(Next(Next(s, a), b), c))
  {
    OneMore(s, [], s, a);
    assert [] + [a] == [a];
    OneMore(s, [a], Next(s, a), b);
    assert [a] + [b] == [a, b];
    OneMore(s, [a, b], Next(Next(s, a), b), c);
    assert [a, b] + [c] == [a, b, c];
  }

  /**
   A nack adds the message to the stream again and only then releases the entry: it
   acknowledges nothing, and the entry, if it was still pending, is replaced by the
   new one.
   */
  lemma NackPutsTheMessageBack(s: State, c: string, claimId: string)
    requires Enabled(s, BeginNack(c, claimId)) && Inv(s)
    ensures
      var f := s.consumers[c].pending[claimId];
      var r := After(s, [BeginNack(c, claimId), Add(c), Xack(c)]);
      && r.Some? && var t := r.value;
      && t.stream == s.stream + [Msg(f.m)] && s.stream[f.entry] == Msg(f.m)
      && t.acked == s.acked && t.delivered == s.delivered && f.entry !in t.pel
      && (f.entry in s.pel ==> t.copies == s.copies[f.entry := |s.stream|])
      && (f.entry !in s.pel ==> t.copies == s.copies)
      && IsIdle(t, c) && t.consumers[c].pending == s.consumers[c].pending - {claimId}
  {
    ThreeSteps(s, BeginNack(c, claimId), Add(c), Xack(c));
    assert ConsumerOk(s.stream, s.delivered, s.consumers[c]);
    assert Holds(s.stream, s.delivered, s.consumers[c].pending[claimId]);
  }

  /** An ack releases the claimed entry for good, and adds nothing. */
  lemma AckReleasesTheEntry(s: State, c: string, claimId: string)
    requires Enabled(s, BeginAck(c, claimId))
    ensures
      var e := s.consumers[c].pending[claimId].entry;
      var s1 := Next(s, BeginAck(c, claimId));
      && Enabled(s1, Xack(c)) && var t := Next(s1, Xack(c));
      && t.stream == s.stream && t.copies == s.copies && t.pel == s.pel - {e}
      && t.acked == (if e in s.pel then s.acked + {e} else s.acked)
      && IsIdle(t, c) && t.consumers[c].pending == s.consumers[c].pending - {claimId}
  {
  }

  /** A read of one entry that is a message. */
  lemma ReadFinds(s: State, c: string) returns (t: State)
    requires IsIdle(s, c) && s.delivered < |s.stream| && s.stream[s.delivered].Msg?
    ensures Enabled(s, Read(c, 1)) && Enabled(Next(s, Read(c, 1)), Look(c, true))
    ensures t == Next(Next(s, Read(c, 1)), Look(c, true))
    ensures t == s.(delivered := s.delivered + 1, pel := s.pel[s.delivered := c],
                    consumers := Calling(s, c, Reading([], [Found(s.delivered, s.stream[s.delivered].m)], false)))
  {
    assert From(s.delivered, 1) == [s.delivered];
    assert Handed(s.pel, [s.delivered], c) == s.pel[s.delivered := c];
    t := Next(Next(s, Read(c, 1)), Look(c, true));
    var f := Found(s.delivered, s.stream[s.delivered].m);
    assert [s.delivered][1..] == [] && [] + [f] == [f];
    assert t.consumers == Calling(s, c, Reading([], [Found(s.delivered, s.stream[s.delivered].m)], false));
  }

  /** A claim hands out the first unread entry, if it is a message, and files it with its consumer. */
  lemma ReadHandsOutTheNext(s: State, c: string, claimId: string)
    requires IsIdle(s, c) && claimId !in s.consumers[c].pending
    requires s.delivered < |s.stream| && s.stream[s.delivered].Msg?
    ensures
      var r := After(s, [Read(c, 1), Look(c, true), Claim(c, claimId)]);
      && r.Some? && var t := r.value;
      && t.delivered == s.delivered + 1 && t.pel == s.pel[s.delivered := c]
      && t.stream == s.stream && t.acked == s.acked && t.copies == s.copies
      && t.consumers[c].pending == s.consumers[c].pending[claimId := Found(s.delivered, s.stream[s.delivered].m)]
  {
    var t := ReadFinds(s, c);
    ThreeSteps(s, Read(c, 1), Look(c, true), Claim(c, claimId));
  }

  /** A pop hands out the first unread entry and acknowledges it at once. */
  lemma PopTakesTheNext(s: State, c: string)
    requires IsIdle(s, c) && s.delivered < |s.stream| && s.stream[s.delivered].Msg?
    ensures
      var r := After(s, [Read(c, 1), Look(c, true), Pop(c)]);
      && r.Some? && var t := r.value;
      && t.delivered == s.delivered + 1 && t.pel == s.pel - {s.delivered} && t.acked == s.acked + {s.delivered}
      && t.stream == s.stream && t.copies == s.copies && t.consumers == s.consumers
  {
    var t := ReadFinds(s, c);
    ThreeSteps(s, Read(c, 1), Look(c, true), Pop(c));
  }

  /**
   What is no message is never handed out. On a fresh read something without the message
   field is acknowledged and skipped, and bytes that do not decode end the call with the
   entry pending; on a take-over it is the other way round, with a skip for an end.
   */
  lemma NoMessageIsHandedOut(s: State, c: string, ok: bool)
    requires Enabled(s, Look(c, ok)) && !s.stream[s.consumers[c].call.todo[0]].Msg?
    ensures
      var call, t := s.consumers[c].call, Next(s, Look(c, ok));
      var e := call.todo[0];
      var thrown := if call.stale then s.stream[e].Undecodable? else s.stream[e].Foreign?;
      && t.pel == (if thrown && ok then s.pel - {e} else s.pel) && t.stream == s.stream && t.acked == s.acked
      && t.consumers[c].pending == s.consumers[c].pending
      && t.consumers[c].call == if !call.stale && s.stream[e].Undecodable? then Idle else call.(todo := call.todo[1..])
  {
  }

  /** A consumer joins with nothing in hand; one that crashes, or whose call ends, changes nothing but itself. */
  lemma ConsumersComeAndGo(s: State, step: Step)
    requires Enabled(s, step) && (step.Join? || step.Crash? || step.GiveUp?)
    ensures Next(s, step).(consumers := s.consumers) == s
    ensures step.Join? ==> IsIdle(Next(s, step), step.c) && Next(s, step).consumers[step.c].pending == map[]
    ensures step.Crash? ==> step.c !in Next(s, step).consumers
    ensures step.GiveUp? ==> IsIdle(Next(s, step), step.c) && Next(s, step).consumers[step.c].pending == s.consumers[step.c].pending
  {
  }

  /** What the steps of a run have added: what was produced, and what was nacked. */
  function Added(states: seq<State>, steps: seq<Step>, n: nat): seq<Entry>
    requires n <= |steps| < |states|
  {
    if n == 0 then []
    else
      Added(states, steps, n - 1) +
      match steps[n - 1]
      case Produce(entry) => [entry]
      case Add(c) =>
        var s := states[n - 1];
        if c in s.consumers && s.consumers[c].call.Nacking? then [Msg(s.consumers[c].call.m)] else []
      case _ => []
  }

  /** Over every run, the stream is what it was, then everything produced or nacked, in that order and nothing else. */
  lemma {:induction false} StreamIsWhatWasAdded(states: seq<State>, steps: seq<Step>, n: nat)
    requires IsRun(states, steps) && n <= |steps|
    ensures states[n].stream == states[0].stream + Added(states, steps, n)
  {
    if n > 0 {
      assert StepAt(states, steps, n - 1);
      StreamIsWhatWasAdded(states, steps, n - 1);
    }
  }

  /** The call began, at some earlier step, with an ack of a claim that held the entry. */
  ghost predicate AckBegun(states: seq<State>, steps: seq<Step>, n: nat, c: string, e: nat)
    requires |states| == |steps| + 1 && n < |states|
  {
    exists j, id :: 0 <= j < n && BeginsAck(states[j], steps[j], c, id, e)
  }

  predicate BeginsAck(s: State, step: Step, c: string, id: string, e: nat) {
    step == BeginAck(c, id) && Enabled(s, step) && s.consumers[c].pending[id].entry == e
  }

  lemma {:induction false} AckingWasBegun(states: seq<State>, steps: seq<Step>, n: nat, c: string)
    requires IsRun(states, steps) && n < |states| && c in states[n].consumers && states[n].consumers[c].call.Acking?
    ensures AckBegun(states, steps, n, c, states[n].consumers[c].call.entry)
  {
    assert StepAt(states, steps, n - 1);
    var s, step := states[n - 1], steps[n - 1];
    if By(step, c) {
      if step.BeginAck? {
        assert BeginsAck(s, step, c, step.claimId, states[n].consumers[c].call.entry);
      }
    } else {
      OthersStay(s, step, c);
      AckingWasBegun(states, steps, n - 1, c);
      var j, id :| 0 <= j < n - 1 && BeginsAck(states[j], steps[j], c, id, s.consumers[c].call.entry);
    }
  }

  /** The step acknowledges the entry: the end of an ack that was begun, or a pop. */
  ghost predicate Acks(states: seq<State>, steps: seq<Step>, k: nat, e: nat)
    requires |states| == |steps| + 1 && k < |steps|
  {
    var s, step := states[k], steps[k];
    || (step.Xack? && AckBegun(states, steps, k, step.c, e))
    || (step.Pop? && Enabled(s, step) && s.consumers[step.c].call.out[0].entry == e)
  }

  lemma StepAcks(states: seq<State>, steps: seq<Step>, n: nat, e: nat)
    requires IsRun(states, steps) && n < |steps| && e in states[n + 1].acked && e !in states[n].acked
    ensures Acks(states, steps, n, e)
  {
    assert StepAt(states, steps, n);
    if steps[n].Xack? {
      AckingWasBegun(states, steps, n, steps[n].c);
    }
  }

  /** Over every run, only an ack of a claim that held the entry, or a pop, acknowledges it; no nack ever does. */
  lemma {:induction false} AcknowledgedOnlyOnRequest(states: seq<State>, steps: seq<Step>, n: nat, e: nat)
    requires IsRun(states, steps) && n < |states| && e in states[n].acked
    ensures exists k :: 0 <= k < n && Acks(states, steps, k, e)
  {
    if n > 0 {
      if e in states[n - 1].acked {
        AcknowledgedOnlyOnRequest(states, steps, n - 1, e);
        var k :| 0 <= k < n - 1 && Acks(states, steps, k, e);
      } else {
        StepAcks(states, steps, n - 1, e);
      }
    }
  }

  /** A pending message can be taken over by any idle consumer, whatever became of its owner. */
  lemma AnyoneCanRecover(states: seq<State>, steps: seq<Step>, n: nat, e: nat, c: string, claimId: string)
    requires IsRun(states, steps) && n < |states|
    requires e in states[n].pel && e < |states[n].stream| && states[n].stream[e].Msg?
    requires IsIdle(states[n], c) && claimId !in states[n].consumers[c].pending
    ensures
      var s := states[n];
      var s1 := Next(s, Autoclaim(c, [e]));
      && Enabled(s1, Look(c, true))
      && var s2 := Next(s1, Look(c, true));
      && Enabled(s2, Claim(c, claimId))
      && var s3 := Next(s2, Claim(c, claimId));
      && s3.pel[e] == c && s3.consumers[c].pending[claimId] == Found(e, s.stream[e].m)
  {
  }
}

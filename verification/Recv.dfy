/**
 One batch of the router's main receive loop: claim, dispatch each message, then
 acknowledge or return every claim.
 */
module Recv {
  import opened Messages
  import Delivery
  import Dispatch
  import opened Queue

  /** Where a message was put. */
  datatype Forward =
    | ToWorker(name: string, m: EMessage)   // onto that worker's topic queue
    | ToTopic(m: EMessage)                  // relayed onto the topic queue
    | ToEphemeral(m: EMessage)              // handed to a one-shot worker

  datatype Fate = Sent(forward: Forward) | Dropped | Back

  /** What the tables and queues answer while one message is dispatched. */
  datatype Env = Env(
    topics: set<string>,        // registered topics
    index: set<string>,         // indexed workers
    idle: Option<string>,       // idle worker found for the topic
    stillThere: bool,           // the topic is still registered when its producer is looked up
    accepts: bool)              // the send, or the one-shot worker's creation, succeeds

  function Lookup(node: Option<string>, index: set<string>, target: string): Option<string> {
    if target in index then Some(target)
    else if node.Some? && Qualified(node.value, target) in index then Some(Qualified(node.value, target))
    else None
  }

  /** The specification of one pass of the dispatch loop. */
  function FateOf(node: Option<string>, env: Env, m: EMessage): Fate {
    if m.topic !in env.topics then Back
    else match m.toWorker
      case Some(target) =>
        (match Lookup(node, env.index, target)
         case Some(w) => if env.accepts then Sent(ToWorker(w, m)) else Back
         case None =>
           if m.attempts >= MAX_TARGETED_HOPS then Dropped
           else if env.stillThere && env.accepts then Sent(ToTopic(m.(attempts := m.attempts + 1)))
           else Back)
      case None =>
        if !env.accepts then Back
        else if env.idle.Some? then Sent(ToWorker(env.idle.value, m))
        else Sent(ToEphemeral(m))
  }

  /** A target is honoured, a relay is one hop of the shared counter, and only the cap drops a message. */
  lemma FateHonoursTheTarget(node: Option<string>, env: Env, m: EMessage, target: string)
    requires m.toWorker == Some(target)
    ensures match FateOf(node, env, m)
            case Sent(ToWorker(w, copy)) => Answers(node, w, target) && w in env.index && copy == m
            case Sent(ToTopic(copy)) =>
              && Dispatch.Hop(m) == Some(copy)
              && forall w :: w in env.index ==> !Answers(node, w, target)
            case Sent(ToEphemeral(_)) => false
            case Dropped => Dispatch.Hop(m) == None && forall w :: w in env.index ==> !Answers(node, w, target)
            case Back =>
              || m.topic !in env.topics || !env.accepts
              || (!env.stillThere && forall w :: w in env.index ==> !Answers(node, w, target))
  {
  }

  /** Without a target only an unknown topic or a refused send sends a message back, and nothing drops it. */
  lemma FateWithoutATarget(node: Option<string>, env: Env, m: EMessage)
    requires m.toWorker == None
    ensures FateOf(node, env, m).Back? <==> m.topic !in env.topics || !env.accepts
    ensures !FateOf(node, env, m).Back? ==>
              FateOf(node, env, m) == Sent(if env.idle.Some? then ToWorker(env.idle.value, m) else ToEphemeral(m))
  {
  }

  /** The delivery machine routes a message of a batch exactly as the loop does. */
  lemma MachineFollowsTheLoop(s: Delivery.System, m: EMessage, choice: Option<string>, ephemeral: string,
                              node: Option<string>, env: Env)
    requires m.id in s.ledgers && (choice.Some? ==> choice.value in s.workers)
    requires env.topics == s.topics && env.stillThere == (m.topic in s.topics)
    requires choice == if m.toWorker.Some? then Lookup(node, env.index, m.toWorker.value) else env.idle
    requires env.accepts == (if choice.Some? then Delivery.HasRoom(s, s.workers[choice.value].topic)
                             else m.toWorker.None? || Delivery.HasRoom(s, m.topic))
    ensures Delivery.RouteMove(s, m, choice, ephemeral).put ==
              Some(match FateOf(node, env, m)
                   case Sent(ToWorker(w, copy)) => Delivery.Token(Delivery.InQueue(s.workers[w].topic), copy)
                   case Sent(ToTopic(copy)) => Delivery.Token(Delivery.InQueue(m.topic), copy)
                   case Sent(ToEphemeral(copy)) => Delivery.Token(Delivery.AtWorker(ephemeral), copy)
                   case Dropped => Delivery.Token(Delivery.Dropped, m)
                   case Back => Delivery.Token(Delivery.InRouterNack, m))
  {
  }

  // ---- What a batch comes to ---------------------------------------------------

  function Ids(node: Option<string>, envs: nat -> Env, batch: seq<Claimed>, back: bool): seq<nat> {
    if batch == [] then []
    else
      var k := |batch| - 1;
      Ids(node, envs, batch[..k], back) +
        (if FateOf(node, envs(k), batch[k].message).Back? == back then [batch[k].claimId] else [])
  }

  /** The messages whose claims go back, in order. */
  function Returned(node: Option<string>, envs: nat -> Env, batch: seq<Claimed>): seq<EMessage> {
    if batch == [] then []
    else
      var k := |batch| - 1;
      Returned(node, envs, batch[..k]) +
        (if FateOf(node, envs(k), batch[k].message).Back? then [batch[k].message] else [])
  }

  function Forwards(node: Option<string>, envs: nat -> Env, batch: seq<Claimed>): seq<Forward> {
    if batch == [] then []
    else
      var k := |batch| - 1;
      var fate := FateOf(node, envs(k), batch[k].message);
      Forwards(node, envs, batch[..k]) + (if fate.Sent? then [fate.forward] else [])
  }

  /** The numbers below `i` a test holds of. */
  ghost function Below(test: nat -> bool, i: nat): set<nat> {
    set k: nat | k < i && test(k)
  }

  lemma OneMoreBelow(test: nat -> bool, i: nat)
    ensures |Below(test, i + 1)| == |Below(test, i)| + if test(i) then 1 else 0
  {
    var was, now := Below(test, i), Below(test, i + 1);
    assert i !in was;
    assert now == if test(i) then was + {i} else was;
  }

  lemma SameBelow(test: nat -> bool, other: nat -> bool, i: nat)
    requires forall k: nat | k < i :: test(k) == other(k)
    ensures Below(test, i) == Below(other, i)
  {
  }

  function IsSent(node: Option<string>, envs: nat -> Env, batch: seq<Claimed>): nat -> bool {
    (k: nat) => k < |batch| && FateOf(node, envs(k), batch[k].message).Sent?
  }

  /** The claims before the `i`-th that were forwarded. */
  ghost function SentBefore(node: Option<string>, envs: nat -> Env, batch: seq<Claimed>, i: nat): set<nat> {
    Below(IsSent(node, envs, batch), i)
  }

  lemma SentInPrefix(node: Option<string>, envs: nat -> Env, batch: seq<Claimed>, n: nat, i: nat)
    requires i <= n <= |batch|
    ensures SentBefore(node, envs, batch[..n], i) == SentBefore(node, envs, batch, i)
  {
    SameBelow(IsSent(node, envs, batch[..n]), IsSent(node, envs, batch), i);
  }

  lemma {:induction false} ForwardsCount(node: Option<string>, envs: nat -> Env, batch: seq<Claimed>)
    ensures |Forwards(node, envs, batch)| == |SentBefore(node, envs, batch, |batch|)|
  {
    if batch != [] {
      var k := |batch| - 1;
      ForwardsCount(node, envs, batch[..k]);
      SentInPrefix(node, envs, batch, k, k);
      OneMoreBelow(IsSent(node, envs, batch), k);
    }
  }

  /**
   The forwards of a batch are those of its forwarded claims, one each and in their
   order: a claim that was forwarded has its copy where its rank among them says.
   */
  lemma {:induction false} EveryForwardInItsPlace(node: Option<string>, envs: nat -> Env, batch: seq<Claimed>, i: nat)
    requires i < |batch|
    ensures |Forwards(node, envs, batch)| == |SentBefore(node, envs, batch, |batch|)|
    ensures
      var fate := FateOf(node, envs(i), batch[i].message);
      var rank := |SentBefore(node, envs, batch, i)|;
      fate.Sent? ==> rank < |Forwards(node, envs, batch)| && Forwards(node, envs, batch)[rank] == fate.forward
  {
    var k := |batch| - 1;
    ForwardsCount(node, envs, batch);
    ForwardsCount(node, envs, batch[..k]);
    SentInPrefix(node, envs, batch, k, k);
    SentInPrefix(node, envs, batch, k, i);
    if i < k {
      EveryForwardInItsPlace(node, envs, batch[..k], i);
    }
  }

  ghost predicate DistinctIds(batch: seq<Claimed>) {
    forall i, j :: 0 <= i < j < |batch| ==> batch[i].claimId != batch[j].claimId
  }

  /** The `i`-th claim has this id and goes back, or does not. */
  predicate HasFate(node: Option<string>, envs: nat -> Env, batch: seq<Claimed>, back: bool, id: nat, i: nat) {
    i < |batch| && batch[i].claimId == id && FateOf(node, envs(i), batch[i].message).Back? == back
  }

  /** A claim is on the list its fate calls for. */
  lemma {:induction false} IdListed(node: Option<string>, envs: nat -> Env, batch: seq<Claimed>, back: bool, id: nat)
    ensures id in Ids(node, envs, batch, back) <==> exists i :: HasFate(node, envs, batch, back, id, i)
  {
    if batch != [] {
      var k := |batch| - 1;
      IdListed(node, envs, batch[..k], back, id);
      forall i: nat | i < k
        ensures HasFate(node, envs, batch, back, id, i) <==> HasFate(node, envs, batch[..k], back, id, i)
      {
        assert batch[..k][i] == batch[i];
      }
      assert HasFate(node, envs, batch, back, id, k) <==>
               batch[k].claimId == id && FateOf(node, envs(k), batch[k].message).Back? == back;
    }
  }

  /** Every claim of a batch is acked or nacked, never both: nacked exactly when it was forwarded to nobody and kept. */
  lemma EveryClaimOnOneList(node: Option<string>, envs: nat -> Env, batch: seq<Claimed>, i: nat)
    requires DistinctIds(batch) && i < |batch|
    ensures batch[i].claimId in Ids(node, envs, batch, true) <==> FateOf(node, envs(i), batch[i].message).Back?
    ensures batch[i].claimId in Ids(node, envs, batch, false) <==> !FateOf(node, envs(i), batch[i].message).Back?
  {
    var back := FateOf(node, envs(i), batch[i].message).Back?;
    IdListed(node, envs, batch, true, batch[i].claimId);
    IdListed(node, envs, batch, false, batch[i].claimId);
    assert HasFate(node, envs, batch, back, batch[i].claimId, i);
  }

  lemma {:induction false} BatchPending(pending: map<nat, EMessage>, batch: seq<Claimed>, id: nat)
    ensures id in WithBatch(pending, batch) <==> id in pending || exists i :: 0 <= i < |batch| && batch[i].claimId == id
    ensures (forall i :: 0 <= i < |batch| ==> batch[i].claimId != id) && id in pending ==>
              WithBatch(pending, batch)[id] == pending[id]
  {
    if batch != [] {
      var k := |batch| - 1;
      BatchPending(pending, batch[..k], id);
      forall i | 0 <= i < k && batch[i].claimId == id
        ensures batch[..k][i].claimId == id
      {
      }
    }
  }

  lemma {:induction false} BatchMessage(pending: map<nat, EMessage>, batch: seq<Claimed>, i: nat)
    requires DistinctIds(batch) && i < |batch|
    ensures batch[i].claimId in WithBatch(pending, batch)
    ensures WithBatch(pending, batch)[batch[i].claimId] == batch[i].message
  {
    var k := |batch| - 1;
    if i < k {
      BatchMessage(pending, batch[..k], i);
    }
  }

  predicate Distinct(ids: seq<nat>) {
    forall i, j :: 0 <= i < j < |ids| ==> ids[i] != ids[j]
  }

  /** The claims that go back are distinct, are not acked, and hold the returned messages. */
  lemma {:induction false} BackList(node: Option<string>, envs: nat -> Env, batch: seq<Claimed>, j: nat)
    requires DistinctIds(batch) && j < |Ids(node, envs, batch, true)|
    ensures |Ids(node, envs, batch, true)| == |Returned(node, envs, batch)|
    ensures exists i :: 0 <= i < |batch| && batch[i].claimId == Ids(node, envs, batch, true)[j] &&
                        batch[i].message == Returned(node, envs, batch)[j]
  {
    BackLength(node, envs, batch);
    var k := |batch| - 1;
    BackLength(node, envs, batch[..k]);
    if j < |Ids(node, envs, batch[..k], true)| {
      BackList(node, envs, batch[..k], j);
      var i :| 0 <= i < k && batch[..k][i].claimId == Ids(node, envs, batch[..k], true)[j] &&
               batch[..k][i].message == Returned(node, envs, batch[..k])[j];
      assert batch[i] == batch[..k][i];
    }
  }

  lemma {:induction false} BackLength(node: Option<string>, envs: nat -> Env, batch: seq<Claimed>)
    ensures |Ids(node, envs, batch, true)| == |Returned(node, envs, batch)|
  {
    if batch != [] {
      BackLength(node, envs, batch[..|batch| - 1]);
    }
  }

  lemma {:induction false} IdsDistinct(node: Option<string>, envs: nat -> Env, batch: seq<Claimed>, back: bool)
    requires DistinctIds(batch)
    ensures Distinct(Ids(node, envs, batch, back))
  {
    if batch != [] {
      var k := |batch| - 1;
      IdsDistinct(node, envs, batch[..k], back);
      IdListed(node, envs, batch[..k], back, batch[k].claimId);
    }
  }

  /** After the acks every claim to be nacked is still pending with its message, and the nacks clear the batch. */
  lemma Settled(node: Option<string>, envs: nat -> Env, batch: seq<Claimed>, before: map<nat, EMessage>)
    requires DistinctIds(batch) && forall i :: 0 <= i < |batch| ==> batch[i].claimId !in before
    ensures
      var acks, nacks := Ids(node, envs, batch, false), Ids(node, envs, batch, true);
      var left := WithBatch(before, batch) - (set k | k in acks);
      && Distinct(nacks) && |nacks| == |Returned(node, envs, batch)|
      && (forall j :: 0 <= j < |nacks| ==> nacks[j] in left && left[nacks[j]] == Returned(node, envs, batch)[j])
      && left - (set k | k in nacks) == before
  {
    var acks, nacks := Ids(node, envs, batch, false), Ids(node, envs, batch, true);
    var all := WithBatch(before, batch);
    IdsDistinct(node, envs, batch, true);
    BackLength(node, envs, batch);
    forall j | 0 <= j < |nacks|
      ensures nacks[j] in all && nacks[j] !in acks && all[nacks[j]] == Returned(node, envs, batch)[j]
    {
      BackList(node, envs, batch, j);
      var i :| 0 <= i < |batch| && batch[i].claimId == nacks[j] && batch[i].message == Returned(node, envs, batch)[j];
      BatchMessage(before, batch, i);
      EveryClaimOnOneList(node, envs, batch, i);
    }
    forall id
      ensures id in all && id !in acks && id !in nacks <==> id in before
      ensures id in before ==> id in all && all[id] == before[id]
    {
      BatchPending(before, batch, id);
      forall i | 0 <= i < |batch|
        ensures batch[i].claimId in acks || batch[i].claimId in nacks
      {
        EveryClaimOnOneList(node, envs, batch, i);
      }
      IdListed(node, envs, batch, true, id);
      IdListed(node, envs, batch, false, id);
    }
  }

  /** The queue and the claims after these nacks in turn; on a closed queue, or for an unknown claim, a nack does nothing. */
  function NackedAll(items: seq<EMessage>, pending: map<nat, EMessage>, ids: seq<nat>, closed: bool)
    : (seq<EMessage>, map<nat, EMessage>)
  {
    if ids == [] then (items, pending)
    else
      var (i, p) := NackedAll(items, pending, ids[..|ids| - 1], closed);
      var id := ids[|ids| - 1];
      if closed || id !in p then (i, p) else (i + [p[id]], p - {id})
  }

  /** On an open queue distinct claims all go back, in order and unchanged, and nothing else does. */
  lemma {:induction false} NackedGoBack(items: seq<EMessage>, pending: map<nat, EMessage>, ids: seq<nat>, back: seq<EMessage>)
    requires Distinct(ids) && |back| == |ids|
    requires forall j :: 0 <= j < |ids| ==> ids[j] in pending && pending[ids[j]] == back[j]
    ensures NackedAll(items, pending, ids, false).0 == items + back
    ensures NackedAll(items, pending, ids, false).1 == pending - (set k | k in ids)
  {
    if ids != [] {
      var n := |ids| - 1;
      NackedGoBack(items, pending, ids[..n], back[..n]);
      assert ids[n] !in ids[..n];
      assert items + back[..n] + [back[n]] == items + back;
      var before := set k | k in ids[..n];
      assert (set k | k in ids) == before + {ids[n]};
      assert pending - before - {ids[n]} == pending - (before + {ids[n]});
    } else {
      assert items + back == items;
      assert pending - {} == pending;
    }
  }

  function IsSettled(node: Option<string>, envs: nat -> Env, batch: seq<Claimed>, back: bool): nat -> bool {
    (k: nat) => k < |batch| && FateOf(node, envs(k), batch[k].message).Back? == back
  }

  /** The claims before the `i`-th that go back, or those that do not. */
  ghost function SettledBefore(node: Option<string>, envs: nat -> Env, batch: seq<Claimed>, back: bool, i: nat): set<nat> {
    Below(IsSettled(node, envs, batch, back), i)
  }

  lemma SettledInPrefix(node: Option<string>, envs: nat -> Env, batch: seq<Claimed>, back: bool, n: nat, i: nat)
    requires i <= n <= |batch|
    ensures SettledBefore(node, envs, batch[..n], back, i) == SettledBefore(node, envs, batch, back, i)
  {
    SameBelow(IsSettled(node, envs, batch[..n], back), IsSettled(node, envs, batch, back), i);
  }

  lemma {:induction false} IdsCount(node: Option<string>, envs: nat -> Env, batch: seq<Claimed>, back: bool)
    ensures |Ids(node, envs, batch, back)| == |SettledBefore(node, envs, batch, back, |batch|)|
  {
    if batch != [] {
      var k := |batch| - 1;
      IdsCount(node, envs, batch[..k], back);
      SettledInPrefix(node, envs, batch, back, k, k);
      OneMoreBelow(IsSettled(node, envs, batch, back), k);
    }
  }

  /** Both lists, and the messages that go back, keep the order of the batch. */
  lemma {:induction false} ListsKeepTheOrder(node: Option<string>, envs: nat -> Env, batch: seq<Claimed>, back: bool, i: nat)
    requires i < |batch| && FateOf(node, envs(i), batch[i].message).Back? == back
    ensures |Ids(node, envs, batch, true)| == |Returned(node, envs, batch)|
    ensures
      var rank := |SettledBefore(node, envs, batch, back, i)|;
      && rank < |Ids(node, envs, batch, back)| && Ids(node, envs, batch, back)[rank] == batch[i].claimId
      && (back ==> Returned(node, envs, batch)[rank] == batch[i].message)
  {
    var k := |batch| - 1;
    BackLength(node, envs, batch);
    BackLength(node, envs, batch[..k]);
    IdsCount(node, envs, batch[..k], back);
    SettledInPrefix(node, envs, batch, back, k, k);
    SettledInPrefix(node, envs, batch, back, k, i);
    if i < k {
      ListsKeepTheOrder(node, envs, batch[..k], back, i);
    }
  }

  /** A forwarded claim has its copy out, at its rank after what was sent before. */
  ghost predicate ForwardedAsFated(node: Option<string>, envs: nat -> Env, batch: seq<Claimed>, i: nat,
                                   before: seq<Forward>, sent: seq<Forward>)
    requires i < |batch|
  {
    var at := |before| + |SentBefore(node, envs, batch, i)|;
    var fate := FateOf(node, envs(i), batch[i].message);
    fate.Sent? ==> at < |sent| && sent[at] == fate.forward
  }

  // ---- The loop itself -----------------------------------------------------------

  class Outbox {
    var sent: seq<Forward>

    constructor ()
      ensures sent == []
    {
      sent := [];
    }

    method Send(f: Forward, accepts: bool) returns (ok: bool)
      modifies this
      ensures ok == accepts && sent == old(sent) + (if ok then [f] else [])
    {
      ok := accepts;
      if ok {
        sent := sent + [f];
      }
    }
  }

  class Loop {
    const node: Option<string>
    const consumer: Consumer
    const outbox: Outbox

    constructor (node: Option<string>, consumer: Consumer, outbox: Outbox)
      ensures this.node == node && this.consumer == consumer && this.outbox == outbox
    {
      this.node, this.consumer, this.outbox := node, consumer, outbox;
    }

    /** One message; the answer says whether its claim is to be acked. */
    method DispatchOne(m: EMessage, env: Env) returns (ack: bool)
      modifies outbox
      ensures ack == !FateOf(node, env, m).Back?
      ensures outbox.sent == old(outbox.sent) + (if FateOf(node, env, m).Sent? then [FateOf(node, env, m).forward] else [])
    {
      if m.topic !in env.topics {
        return false;
      }
      var worker := if m.toWorker.Some? then Lookup(node, env.index, m.toWorker.value) else env.idle;
      if worker.Some? {
        ack := outbox.Send(ToWorker(worker.value, m), env.accepts);
      } else if m.toWorker.Some? {
        if m.attempts >= MAX_TARGETED_HOPS {
          return true;
        }
        var relay := m.(attempts := m.attempts + 1);
        if env.stillThere {
          ack := outbox.Send(ToTopic(relay), env.accepts);
        } else {
          ack := false;
        }
      } else {
        ack := outbox.Send(ToEphemeral(m), env.accepts);
      }
    }

    method DispatchAll(batch: seq<Claimed>, envs: nat -> Env) returns (toAck: seq<nat>, toNack: seq<nat>)
      modifies outbox
      ensures toAck == Ids(node, envs, batch, false) && toNack == Ids(node, envs, batch, true)
      ensures outbox.sent == old(outbox.sent) + Forwards(node, envs, batch)
    {
      toAck, toNack := [], [];
      for i := 0 to |batch|
        invariant toAck == Ids(node, envs, batch[..i], false) && toNack == Ids(node, envs, batch[..i], true)
        invariant outbox.sent == old(outbox.sent) + Forwards(node, envs, batch[..i])
      {
        assert batch[..i + 1][..i] == batch[..i];
        var ack := DispatchOne(batch[i].message, envs(i));
        if ack {
          toAck := toAck + [batch[i].claimId];
        } else {
          toNack := toNack + [batch[i].claimId];
        }
      }
      assert batch[..|batch|] == batch;
    }

    method AckAll(ids: seq<nat>)
      requires consumer.Valid()
      modifies consumer`pending
      ensures consumer.Valid() && consumer.pending == old(consumer.pending) - (set k | k in ids)
    {
      for i := 0 to |ids|
        invariant consumer.Valid() && consumer.pending == old(consumer.pending) - (set k | k in ids[..i])
      {
        consumer.Ack(ids[i]);
        assert ids[..i + 1] == ids[..i] + [ids[i]];
      }
      assert ids[..|ids|] == ids;
    }

    /** Failed nacks are ignored: on a closed channel the claims stay pending. */
    method NackAll(ids: seq<nat>)
      requires consumer.Valid()
      modifies consumer`pending, consumer.channel`items
      ensures consumer.Valid()
      ensures (consumer.channel.items, consumer.pending) ==
                NackedAll(old(consumer.channel.items), old(consumer.pending), ids, consumer.channel.closed)
    {
      for i := 0 to |ids|
        invariant consumer.Valid()
        invariant (consumer.channel.items, consumer.pending) ==
                    NackedAll(old(consumer.channel.items), old(consumer.pending), ids[..i], consumer.channel.closed)
      {
        assert ids[..i + 1][..i] == ids[..i];
        var _ := consumer.Nack(ids[i]);
      }
      assert ids[..|ids|] == ids;
    }

    /**
     One batch. What is acked was forwarded once or dropped at the cap; what is nacked
     was forwarded nowhere and is back on the queue as it was; and no claim is left
     pending that was not before, unless the queue is closed.
     */
    method RecvBatch(max: nat, envs: nat -> Env) returns (batch: seq<Claimed>, toAck: seq<nat>, toNack: seq<nat>)
      requires consumer.Valid()
      modifies consumer, consumer.channel`items, outbox
      ensures consumer.Valid() && DistinctIds(batch)
      ensures |batch| == if max <= |old(consumer.channel.items)| then max else |old(consumer.channel.items)|
      ensures forall i :: 0 <= i < |batch| ==> batch[i].message == old(consumer.channel.items)[i]
      ensures toAck == Ids(node, envs, batch, false) && toNack == Ids(node, envs, batch, true)
      ensures outbox.sent == old(outbox.sent) + Forwards(node, envs, batch)
      ensures |outbox.sent| == |old(outbox.sent)| + |SentBefore(node, envs, batch, |batch|)|
      ensures forall i :: 0 <= i < |batch| ==> ForwardedAsFated(node, envs, batch, i, old(outbox.sent), outbox.sent)
      ensures !consumer.channel.closed ==>
                && consumer.pending == old(consumer.pending)
                && consumer.channel.items == old(consumer.channel.items)[|batch|..] + Returned(node, envs, batch)
    {
      ghost var before := consumer.pending;
      batch := consumer.ClaimBatch(max);
      assert DistinctIds(batch);
      toAck, toNack := DispatchAll(batch, envs);
      AckAll(toAck);
      Settled(node, envs, batch, before);
      NackedGoBack(consumer.channel.items, consumer.pending, toNack, Returned(node, envs, batch));
      NackAll(toNack);
      ForwardsCount(node, envs, batch);
      forall i | 0 <= i < |batch|
        ensures ForwardedAsFated(node, envs, batch, i, old(outbox.sent), outbox.sent)
      {
        EveryForwardInItsPlace(node, envs, batch, i);
      }
    }
  }
}

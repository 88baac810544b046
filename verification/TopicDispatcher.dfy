/**
 One pass of a topic's dispatch loop over the in-memory queue: claim, refresh the
 cached workers, then deliver, return, relay or drop.
 */
module TopicDispatcher {
  import opened Messages
  import opened Dispatch
  import opened Queue
  import opened CacheCoherence

  function CachedNames(cached: seq<Entry>): seq<string> {
    seq(|cached|, i requires 0 <= i < |cached| => cached[i].name)
  }

  predicate Accepts(contents: map<nat, seq<EMessage>>, capacity: nat, inbox: nat) {
    inbox in contents && |contents[inbox]| < capacity
  }

  /** Worker inboxes by handle; a handle whose receiver is gone is closed. */
  class Inboxes {
    var contents: map<nat, seq<EMessage>>
    const capacity: nat

    constructor (capacity: nat)
      ensures contents == map[] && this.capacity == capacity
    {
      contents := map[];
      this.capacity := capacity;
    }

    method TrySend(inbox: nat, m: EMessage) returns (ok: bool)
      modifies this
      ensures ok == Accepts(old(contents), capacity, inbox)
      ensures contents == if ok then old(contents)[inbox := old(contents)[inbox] + [m]] else old(contents)
    {
      ok := inbox in contents && |contents[inbox]| < capacity;
      if ok {
        contents := contents[inbox := contents[inbox] + [m]];
      }
    }
  }

  /** The cache is rebuilt when the generation moved on or the cache is empty. */
  function Reloaded(generation: nat, seen: nat, cached: seq<Entry>, names: seq<string>, live: map<string, nat>): seq<Entry> {
    if generation != seen || cached == [] then Resolve(names, live) else cached
  }

  /** Rebuilding the cache keeps the rotation's place. */
  function Reduced(generation: nat, seen: nat, cached: seq<Entry>, cursor: nat, size: nat): nat {
    if (generation != seen || cached == []) && size > 0 then cursor % size else cursor
  }

  /** What one pass leaves of the queue, the claims and the inboxes, `m` being the claimed message. */
  datatype World = World(items: seq<EMessage>, pending: map<nat, EMessage>, inboxes: map<nat, seq<EMessage>>)

  /** The claim is released and one stamped copy is in the chosen inbox. */
  function Delivered(w: World, c: Claimed, e: Entry): World {
    World(w.items, w.pending - {c.claimId},
          if e.inbox in w.inboxes then w.inboxes[e.inbox := w.inboxes[e.inbox] + [Stamp(c.message, e.name)]] else w.inboxes)
  }

  /** The claim is back at the end of the queue, unless the queue is closed. */
  function Nacked(w: World, c: Claimed, closed: bool): World {
    if closed then w else w.(items := w.items + [c.message], pending := w.pending - {c.claimId})
  }

  /** The claim is released before the copy is sent: a closed queue loses the message. */
  function Relayed(w: World, c: Claimed, copy: EMessage, closed: bool): World {
    World(w.items + (if closed then [] else [copy]), w.pending - {c.claimId}, w.inboxes)
  }

  function Dispatched(w: World, c: Claimed, d: Decision, cached: seq<Entry>, accepted: bool, closed: bool): World
    requires d.Deliver? ==> d.index < |cached|
  {
    match d
    case NoWorkers => Nacked(w, c, closed)
    case Deliver(i, _) => if accepted then Delivered(w, c, cached[i]) else Nacked(w, c, closed)
    case Relay(copy) => Relayed(w, c, copy, closed)
    case Drop => w.(pending := w.pending - {c.claimId})
  }

  /** One inbox has one more message at its end; every other inbox is as it was. */
  ghost predicate GainsOne(a: map<nat, seq<EMessage>>, b: map<nat, seq<EMessage>>, inbox: nat, m: EMessage) {
    && inbox in a && b.Keys == a.Keys && b[inbox] == a[inbox] + [m]
    && forall k :: k in a && k != inbox ==> b[k] == a[k]
  }

  /** What a decision takes out of flight and puts in. */
  lemma FlightAfter(w: World, c: Claimed, d: Decision, cached: seq<Entry>, accepted: bool)
    requires c.claimId in w.pending && w.pending[c.claimId] == c.message
    requires d.Deliver? ==> d.index < |cached|
    ensures
      var w' := Dispatched(w, c, d, cached, accepted, false);
      var was, now := InFlight(w.items, w.pending), InFlight(w'.items, w'.pending);
      match d
      case NoWorkers => now == was
      case Deliver(_, _) => if accepted then now + multiset{c.message} == was else now == was
      case Relay(copy) => now + multiset{c.message} == was + multiset{copy}
      case Drop => now + multiset{c.message} == was
  {
    AckReleases(w.items, w.pending, c.claimId);
    NackConserves(w.items, w.pending, c.claimId);
  }

  /** The decision in terms of the cached entries. */
  lemma DecisionAmongCached(node: Option<string>, cached: seq<Entry>, cursor: nat, m: EMessage)
    ensures
      match Decide(node, CachedNames(cached), cursor, m)
      case NoWorkers => cached == []
      case Deliver(i, _) => i < |cached| && (m.toWorker.Some? ==> Answers(node, cached[i].name, m.toWorker.value))
      case Relay(copy) =>
        && m.toWorker.Some? && Hop(m) == Some(copy)
        && forall i :: 0 <= i < |cached| ==> !Answers(node, cached[i].name, m.toWorker.value)
      case Drop =>
        && m.toWorker.Some? && Hop(m) == None
        && forall i :: 0 <= i < |cached| ==> !Answers(node, cached[i].name, m.toWorker.value)
  {
    assert forall i :: 0 <= i < |cached| ==> CachedNames(cached)[i] == cached[i].name;
  }

  /**
   No pass duplicates or loses a message on an open queue: it stays in flight
   unchanged, moves under a stamp to one inbox, that of a cached worker its target
   allows, is replaced by its one-hop copy, or is dropped at the cap.
   */
  lemma PassMovesOneMessage(w: World, c: Claimed, node: Option<string>, cached: seq<Entry>, cursor: nat, capacity: nat)
    requires c.claimId in w.pending && w.pending[c.claimId] == c.message
    ensures
      var d := Decide(node, CachedNames(cached), cursor, c.message);
      var accepted := d.Deliver? && Accepts(w.inboxes, capacity, cached[d.index].inbox);
      var w' := Dispatched(w, c, d, cached, accepted, false);
      var was, now := InFlight(w.items, w.pending), InFlight(w'.items, w'.pending);
      && c.claimId !in w'.pending
      && match d
      case NoWorkers => cached == [] && now == was && w'.inboxes == w.inboxes && w'.items == w.items + [c.message]
      case Deliver(i, _) =>
        && (c.message.toWorker.Some? ==> Answers(node, cached[i].name, c.message.toWorker.value))
        && (accepted ==>
              && now + multiset{c.message} == was && w'.items == w.items
              && GainsOne(w.inboxes, w'.inboxes, cached[i].inbox, c.message.(toWorker := Some(cached[i].name))))
        && (!accepted ==> now == was && w'.inboxes == w.inboxes && w'.items == w.items + [c.message])
      case Relay(copy) =>
        && Hop(c.message) == Some(copy) && now + multiset{c.message} == was + multiset{copy} && w'.inboxes == w.inboxes
        && w'.items == w.items + [copy]
        && forall i :: 0 <= i < |cached| ==> !Answers(node, cached[i].name, c.message.toWorker.value)
      case Drop =>
        && c.message.toWorker.Some? && Hop(c.message) == None
        && now + multiset{c.message} == was && w'.inboxes == w.inboxes && w'.items == w.items
        && forall i :: 0 <= i < |cached| ==> !Answers(node, cached[i].name, c.message.toWorker.value)
  {
    var d := Decide(node, CachedNames(cached), cursor, c.message);
    DecisionAmongCached(node, cached, cursor, c.message);
    FlightAfter(w, c, d, cached, d.Deliver? && Accepts(w.inboxes, capacity, cached[d.index].inbox));
  }

  /** A message aimed at a cached worker enters that worker's inbox and no other one, or goes back if it is full or closed. */
  lemma LocalTargetEntersOwnInbox(w: World, c: Claimed, node: Option<string>, cached: seq<Entry>, cursor: nat,
                                  capacity: nat, nodes: set<string>, k: nat)
    requires c.claimId in w.pending && w.pending[c.claimId] == c.message
    requires k < |cached| && c.message.toWorker == Some(cached[k].name)
    requires forall i, j :: 0 <= i < j < |cached| ==> cached[i].name != cached[j].name
    requires Unambiguous((set n | n in CachedNames(cached)), nodes) && (node.Some? ==> node.value in nodes)
    ensures
      var d := Decide(node, CachedNames(cached), cursor, c.message);
      var accepted := Accepts(w.inboxes, capacity, cached[k].inbox);
      var w' := Dispatched(w, c, d, cached, accepted, false);
      && d == Deliver(k, cursor)
      && (accepted ==> GainsOne(w.inboxes, w'.inboxes, cached[k].inbox, c.message))
      && (!accepted ==> w'.inboxes == w.inboxes && w'.items == w.items + [c.message])
  {
    var names := CachedNames(cached);
    assert names[k] == cached[k].name;
    LocalTargetGetsOwnInbox(node, names, cursor, c.message, nodes);
    PassMovesOneMessage(w, c, node, cached, cursor, capacity);
    assert Stamp(c.message, cached[k].name) == c.message;
  }

  class Dispatcher {
    const node: Option<string>
    const consumer: Consumer
    const inboxes: Inboxes
    var cursor: nat
    var seen: nat
    var cached: seq<Entry>

    constructor (node: Option<string>, consumer: Consumer, inboxes: Inboxes)
      ensures this.node == node && this.consumer == consumer && this.inboxes == inboxes
      ensures cursor == 0 && seen == U64_MAX && cached == []
    {
      this.node, this.consumer, this.inboxes := node, consumer, inboxes;
      cursor, seen, cached := 0, U64_MAX, [];
    }

    ghost function Outside(): World
      reads consumer, consumer.channel, inboxes
    {
      World(consumer.channel.items, consumer.pending, inboxes.contents)
    }

    /** The names listed for the topic that still have an inbox, in list order. */
    method ResolveAll(names: seq<string>, live: map<string, nat>) returns (entries: seq<Entry>)
      ensures entries == Resolve(names, live)
    {
      entries := [];
      for i := 0 to |names|
        invariant entries == Resolve(names[..i], live)
      {
        if names[i] in live {
          entries := entries + [Entry(names[i], live[names[i]])];
        }
        assert names[..i + 1] == names[..i] + [names[i]];
        ResolveAppend(names[..i], names[i], live);
      }
      assert names[..|names|] == names;
    }

    /** Whatever was cached, the rotation keeps its place, and what is cached anew is exactly what is live. */
    method Refresh(generation: nat, names: seq<string>, live: map<string, nat>)
      modifies this
      ensures cached != [] ==> cursor % |cached| == old(cursor) % |cached|
      ensures generation != old(seen) || old(cached) == [] ==>
                forall e :: e in cached <==> e.name in names && e.name in live && live[e.name] == e.inbox
      ensures cached == Reloaded(generation, old(seen), old(cached), names, live)
      ensures cursor == Reduced(generation, old(seen), old(cached), old(cursor), |cached|)
      ensures seen == generation
    {
      if generation != seen || |cached| == 0 {
        cached := ResolveAll(names, live);
        forall e
          ensures e in cached <==> e.name in names && e.name in live && live[e.name] == e.inbox
        {
          ResolvedIsLive(names, live, e);
        }
        seen := generation;
        if |cached| != 0 {
          ModSuccessor(cursor, |cached|);
          cursor := cursor % |cached|;
        }
      }
    }

    method LocalMatch(target: string) returns (r: Option<nat>)
      ensures r == FirstAnswer(node, CachedNames(cached), target)
    {
      for i := 0 to |cached|
        invariant forall k :: 0 <= k < i ==> !Answers(node, CachedNames(cached)[k], target)
      {
        if Answers(node, cached[i].name, target) {
          assert CachedNames(cached)[i] == cached[i].name;
          return Some(i);
        }
      }
      r := None;
    }

    /** Deliver first, ack only on success. */
    method Offer(c: Claimed, index: nat) returns (accepted: bool)
      requires consumer.Valid() && c.claimId in consumer.pending && consumer.pending[c.claimId] == c.message
      requires index < |cached|
      modifies this`seen, consumer`pending, consumer.channel`items, inboxes
      ensures consumer.Valid() && accepted == Accepts(old(inboxes.contents), inboxes.capacity, cached[index].inbox)
      ensures Outside() == if accepted then Delivered(old(Outside()), c, cached[index])
                           else Nacked(old(Outside()), c, consumer.channel.closed)
      ensures seen == if accepted then old(seen) else U64_MAX
    {
      var msg := c.message.(toWorker := Some(cached[index].name));
      accepted := inboxes.TrySend(cached[index].inbox, msg);
      if accepted {
        consumer.Ack(c.claimId);
      } else {
        var _ := consumer.Nack(c.claimId);
        seen := U64_MAX;
      }
    }

    /** Aimed at somebody else's worker: one more hop, or the end at the cap. */
    method PassOn(c: Claimed)
      requires consumer.Valid()
      modifies consumer`pending, consumer.channel`items
      ensures consumer.Valid()
      ensures Outside() == if Hop(c.message).Some?
                           then Relayed(old(Outside()), c, Hop(c.message).value, consumer.channel.closed)
                           else old(Outside()).(pending := old(consumer.pending) - {c.claimId})
    {
      if c.message.attempts >= MAX_TARGETED_HOPS {
        consumer.Ack(c.claimId);
        return;
      }
      var msg := c.message.(attempts := c.message.attempts + 1);
      consumer.Ack(c.claimId);
      var _ := consumer.channel.Send(msg);
    }

    /** What is done about one claimed message, by the decision of the targeting rules. */
    method Handle(c: Claimed) returns (accepted: bool)
      requires consumer.Valid() && c.claimId in consumer.pending && consumer.pending[c.claimId] == c.message
      modifies this, consumer`pending, consumer.channel`items, inboxes
      ensures cached == old(cached) && consumer.Valid()
      ensures
        var d := Decide(node, CachedNames(cached), old(cursor), c.message);
        && Outside() == Dispatched(old(Outside()), c, d, cached, accepted, consumer.channel.closed)
        && (d.Deliver? ==> accepted == Accepts(old(inboxes.contents), inboxes.capacity, cached[d.index].inbox))
        && cursor == (if d.Deliver? then d.cursor else old(cursor))
        && seen == (if d.Deliver? && !accepted then U64_MAX else old(seen))
    {
      accepted := false;
      if |cached| == 0 {
        var _ := consumer.Nack(c.claimId);
        return;
      }
      if c.message.toWorker.Some? {
        var local := LocalMatch(c.message.toWorker.value);
        if local.Some? {
          accepted := Offer(c, local.value);
          return;
        }
        PassOn(c);
        return;
      }
      var index := cursor % |cached|;
      cursor := (cursor + 1) % USIZE;
      accepted := Offer(c, index);
    }

    /** One pass: nothing happens on an empty queue, otherwise its head is handled by the refreshed cache. */
    method Pass(generation: nat, names: seq<string>, live: map<string, nat>) returns (handled: Option<Claimed>, accepted: bool)
      requires consumer.Valid()
      modifies this, consumer, consumer.channel`items, inboxes
      ensures consumer.Valid()
      ensures handled.None? <==> old(consumer.channel.items) == []
      ensures handled.None? ==> Outside() == old(Outside()) && cached == old(cached) && cursor == old(cursor)
      ensures handled.Some? ==>
                && old(consumer.channel.items)[0] == handled.value.message
                && handled.value.claimId !in old(consumer.pending)
                && cached == Reloaded(generation, old(seen), old(cached), names, live)
                && var turn := Reduced(generation, old(seen), old(cached), old(cursor), |cached|);
                   var d := Decide(node, CachedNames(cached), turn, handled.value.message);
                   var claimed := World(old(consumer.channel.items)[1..],
                                        old(consumer.pending)[handled.value.claimId := handled.value.message],
                                        old(inboxes.contents));
                   && Outside() == Dispatched(claimed, handled.value, d, cached, accepted, consumer.channel.closed)
                   && (d.Deliver? ==> accepted == Accepts(old(inboxes.contents), inboxes.capacity, cached[d.index].inbox))
                   && cursor == (if d.Deliver? then d.cursor else turn)
                   && seen == (if d.Deliver? && !accepted then U64_MAX else generation)
    {
      accepted := false;
      handled := consumer.Claim();
      if handled.None? {
        return;
      }
      Refresh(generation, names, live);
      accepted := Handle(handled.value);
    }
  }
}

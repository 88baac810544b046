/**
 Sending through the topic router: into the delay store, fanned out to every
 registered worker of a topic, or straight to the producer.
 */
module TopicRouter {
  import opened Messages
  import opened CacheCoherence
  import Dispatch
  import opened Queue
  import Registry
  import TopicDispatcher

  /** The copy of a broadcast for one worker; it keeps the message's own topic. */
  function Copy(m: EMessage, name: string): EMessage {
    m.(id := m.id + "-" + name, toWorker := Some(name))
  }

  function Copies(m: EMessage, names: seq<string>): seq<EMessage> {
    seq(|names|, i requires 0 <= i < |names| => Copy(m, names[i]))
  }

  /** `names` lists, once each, the workers registered for the topic. */
  ghost predicate ListsWorkers(t: Registry.Table, topic: string, names: seq<string>) {
    && (forall id :: id in names <==> id in t && t[id].topic == topic)
    && (forall i, j :: 0 <= i < j < |names| ==> names[i] != names[j])
  }

  function WorkerNames(workers: seq<Registry.WorkerInfo>): seq<string> {
    seq(|workers|, i requires 0 <= i < |workers| => workers[i].workerName)
  }

  lemma NamesAreListed(t: Registry.Table, topic: string, workers: seq<Registry.WorkerInfo>)
    requires Registry.Keyed(t)
    requires forall i :: i in workers <==> i.workerName in t && t[i.workerName] == i && i.topic == topic
    requires forall i, j :: 0 <= i < j < |workers| ==> workers[i].workerName != workers[j].workerName
    ensures ListsWorkers(t, topic, WorkerNames(workers))
  {
    forall id
      ensures id in WorkerNames(workers) <==> id in t && t[id].topic == topic
    {
      if id in t && t[id].topic == topic {
        var k :| 0 <= k < |workers| && workers[k] == t[id];
        assert WorkerNames(workers)[k] == id;
      }
      if id in WorkerNames(workers) {
        var k :| 0 <= k < |workers| && WorkerNames(workers)[k] == id;
        assert workers[k] in workers;
      }
    }
  }

  class Router {
    var emitted: seq<EMessage>
    var scheduled: seq<EMessage>
    var room: nat   // sends the producer still takes before it answers with an error

    constructor (room: nat)
      ensures emitted == [] && scheduled == [] && this.room == room
    {
      emitted, scheduled := [], [];
      this.room := room;
    }

    /** One message to the producer, whichever of the three send strategies is in force. */
    method Emit(m: EMessage) returns (ok: bool)
      modifies this`emitted, this`room
      ensures ok == (old(room) > 0)
      ensures emitted == old(emitted) + (if ok then [m] else [])
      ensures room == (if ok then old(room) - 1 else 0)
    {
      ok := room > 0;
      if ok {
        emitted, room := emitted + [m], room - 1;
      }
    }

    /** A copy per worker in turn; the first error ends the loop. */
    method FanOut(m: EMessage, workers: seq<Registry.WorkerInfo>) returns (ok: bool)
      modifies this`emitted, this`room
      ensures ok == (old(room) >= |workers|)
      ensures emitted == old(emitted) + Copies(m, WorkerNames(workers)[..if ok then |workers| else old(room)])
    {
      ghost var names := WorkerNames(workers);
      ok := true;
      for i := 0 to |workers|
        invariant room + i == old(room)
        invariant emitted == old(emitted) + Copies(m, names[..i])
      {
        var copy := m;
        copy := copy.(id := m.id + "-" + workers[i].workerName);
        copy := copy.(toWorker := Some(workers[i].workerName));
        assert Copies(m, names[..i + 1]) == Copies(m, names[..i]) + [copy];
        ok := Emit(copy);
        if !ok { return; }
      }
    }

    /**
     `send`. With a delivery time the message is only scheduled; a broadcast goes to
     the registered workers in some order, and an error leaves a prefix of that order
     emitted; anything else is emitted under the topic asked for.
     */
    method Send(topic: string, m: EMessage, registry: Registry.WorkerRegistry, onWorkerNode: bool, walUp: bool)
      returns (ok: bool, ghost names: seq<string>)
      requires Registry.Keyed(registry.workers)
      modifies this
      ensures m.deliverAt.Some? ==>
                ok == walUp && emitted == old(emitted) && scheduled == old(scheduled) + (if ok then [m] else [])
      ensures m.deliverAt.None? ==> scheduled == old(scheduled)
      ensures m.deliverAt.None? && m.deliveryMode.Broadcast? && onWorkerNode ==> !ok && emitted == old(emitted)
      ensures m.deliverAt.None? && m.deliveryMode.Broadcast? && !onWorkerNode ==>
                && ListsWorkers(registry.workers, topic, names)
                && ok == (old(room) >= |names|)
                && emitted == old(emitted) + Copies(m, names[..if ok then |names| else old(room)])
      ensures m.deliverAt.None? && !m.deliveryMode.Broadcast? ==>
                && ok == (old(room) > 0)
                && emitted == old(emitted) + (if ok then [m.(topic := topic)] else [])
    {
      names := [];
      if m.deliverAt.Some? {
        ok := walUp;
        if ok {
          scheduled := scheduled + [m];
        }
        return;
      }
      if m.deliveryMode.Broadcast? {
        if onWorkerNode {
          ok := false;
          return;
        }
        var workers := registry.GetWorkers(topic);
        names := WorkerNames(workers);
        NamesAreListed(registry.workers, topic, workers);
        ok := FanOut(m, workers);
        return;
      }
      var msg := m.(topic := topic);
      ok := Emit(msg);
    }
  }

  lemma SuffixesDiffer(id: string, a: string, b: string)
    requires a != b
    ensures id + "-" + a != id + "-" + b
  {
    var n := |id| + 1;
    assert (id + "-" + a)[n..] == a && (id + "-" + b)[n..] == b;
  }

  /** A copy is the message itself, payload and all, but for its id and its target. */
  lemma CopiesAreTheMessage(m: EMessage, names: seq<string>, i: nat)
    requires i < |names|
    ensures |Copies(m, names)| == |names| && Copies(m, names)[i].toWorker == Some(names[i])
    ensures Copies(m, names)[i].(id := m.id, toWorker := m.toWorker) == m
  {
    assert Copies(m, names)[i] == Copy(m, names[i]);
  }

  /** The copies of one broadcast have pairwise distinct ids and targets. */
  lemma CopiesAreDistinct(m: EMessage, names: seq<string>, i: nat, j: nat)
    requires i < j < |names| && forall i, j :: 0 <= i < j < |names| ==> names[i] != names[j]
    ensures Copies(m, names)[i].id != Copies(m, names)[j].id
    ensures Copies(m, names)[i].toWorker != Copies(m, names)[j].toWorker
  {
    SuffixesDiffer(m.id, names[i], names[j]);
  }

  /** Exactly one copy is for any given registered worker, and none for anyone else. */
  lemma OneCopyPerWorker(t: Registry.Table, topic: string, names: seq<string>, m: EMessage, w: string)
    requires ListsWorkers(t, topic, names)
    ensures (exists i :: 0 <= i < |names| && Copies(m, names)[i].toWorker == Some(w)) <==> (w in t && t[w].topic == topic)
    ensures forall i, j :: 0 <= i < j < |names| && Copies(m, names)[i].toWorker == Some(w) ==>
              Copies(m, names)[j].toWorker != Some(w)
  {
    if w in names {
      var k :| 0 <= k < |names| && names[k] == w;
      assert Copies(m, names)[k].toWorker == Some(w);
    }
    forall i | 0 <= i < |names| && Copies(m, names)[i].toWorker == Some(w)
      ensures w in names
    {
      assert names[i] == w;
    }
  }

  /**
   When a copy whose worker is local is dispatched, it enters that worker's inbox and
   no other, or goes back to the queue as it is if that inbox is full or closed.
   */
  lemma CopyReachesItsWorker(m: EMessage, names: seq<string>, n: nat, w: TopicDispatcher.World, claimId: nat,
                             node: Option<string>, cached: seq<Entry>, cursor: nat, capacity: nat,
                             nodes: set<string>, k: nat)
    requires n < |names| && k < |cached| && cached[k].name == names[n]
    requires claimId in w.pending && w.pending[claimId] == Copies(m, names)[n]
    requires forall i, j :: 0 <= i < j < |cached| ==> cached[i].name != cached[j].name
    requires Unambiguous((set x | x in TopicDispatcher.CachedNames(cached)), nodes) && (node.Some? ==> node.value in nodes)
    ensures
      var copy := Copies(m, names)[n];
      var d := Dispatch.Decide(node, TopicDispatcher.CachedNames(cached), cursor, copy);
      var accepted := TopicDispatcher.Accepts(w.inboxes, capacity, cached[k].inbox);
      && d == Dispatch.Deliver(k, cursor)
      && var w' := TopicDispatcher.Dispatched(w, Claimed(copy, claimId), d, cached, accepted, false);
      && (accepted ==> TopicDispatcher.GainsOne(w.inboxes, w'.inboxes, cached[k].inbox, copy))
      && (!accepted ==> w'.inboxes == w.inboxes && w'.items == w.items + [copy])
  {
    TopicDispatcher.LocalTargetEntersOwnInbox(w, Claimed(Copies(m, names)[n], claimId), node, cached, cursor, capacity, nodes, k);
  }

  /** Copies stay on the topic of the message, so they are on the topic asked for exactly when the two are the same. */
  lemma CopiesStayOnTheirTopic(m: EMessage, names: seq<string>, topic: string)
    requires names != []
    ensures (forall c :: c in Copies(m, names) ==> c.topic == topic) <==> m.topic == topic
  {
    assert Copies(m, names)[0] in Copies(m, names);
  }
}

/**
 The router's table operations as they are carried out: map by map, with a loop
 wherever every entry or every name of a topic is visited.
 */
module ConsumerRouter {
  import opened Messages
  import opened RouterTables

  lemma ListedAppend(names: seq<string>, last: string, index: map<string, string>)
    ensures Listed(names + [last], index) == Listed(names, index) + (if last in index then {last} else {})
  {
  }

  /** `Vec::retain` with the test "is not this name". */
  method Retain(names: seq<string>, name: string) returns (kept: seq<string>)
    ensures kept == Without(names, name)
  {
    kept := [];
    for i := 0 to |names|
      invariant kept == Without(names[..i], name)
    {
      if names[i] != name {
        kept := kept + [names[i]];
      }
      assert names[..i + 1] == names[..i] + [names[i]];
      WithoutCutsInPlace(names[..i], [names[i]], name);
      assert [names[i]][1..] == [];
    }
    assert names[..|names|] == names;
  }

  /** `retain` on every list of a map. */
  method RetainAll(lists: map<string, seq<string>>, name: string) returns (kept: map<string, seq<string>>)
    ensures kept == AllWithout(lists, name)
  {
    kept := lists;
    var todo := lists.Keys;
    while todo != {}
      invariant todo <= lists.Keys && kept.Keys == lists.Keys
      invariant forall t :: t in lists ==> kept[t] == if t in todo then lists[t] else Without(lists[t], name)
    {
      var t :| t in todo;
      var list := Retain(kept[t], name);
      kept := kept[t := list];
      todo := todo - {t};
    }
  }

  /** `entry`, `or_default`, `push`. */
  method Push(lists: map<string, seq<string>>, topic: string, name: string) returns (r: map<string, seq<string>>)
    ensures r == lists[topic := NamesOf(lists, topic) + [name]]
  {
    r := lists;
    if topic !in r {
      r := r[topic := []];
    }
    r := r[topic := r[topic] + [name]];
  }

  /** The topics switched on. */
  function On(enabled: map<string, bool>): set<string> {
    set t | t in enabled && enabled[t]
  }

  lemma OnChanges(enabled: map<string, bool>, topic: string)
    ensures On(enabled[topic := true]) == On(enabled) + {topic}
    ensures On(enabled - {topic}) == On(enabled) - {topic}
    ensures topic in On(enabled) <==> topic in enabled && enabled[topic]
  {
  }

  /**
   Every method takes the tables from one snapshot to the next by the operation
   of the same name, so any sequence of calls keeps them consistent.
   */
  class Router {
    var localTopics: map<string, seq<string>>
    var workerIndex: map<string, string>
    var dispatchWorkers: map<string, seq<string>>
    var dispatchEnabled: map<string, bool>
    var localInboxes: set<string>
    var dispatchGeneration: nat
    var registrations: multiset<string>
    var started: multiset<(string, nat)>

    ghost function View(): Tables
      reads this
    {
      Tables(localTopics, workerIndex, dispatchWorkers,
             On(dispatchEnabled), localInboxes, dispatchGeneration, registrations, started)
    }

    constructor ()
      ensures View() == EMPTY && Consistent(View())
    {
      localTopics, workerIndex, dispatchWorkers, dispatchEnabled := map[], map[], map[], map[];
      localInboxes, dispatchGeneration := {}, 0;
      registrations, started := multiset{}, multiset{};
    }

    method Register(topic: string) returns (err: Option<Error>)
      modifies this
      ensures View() == Applied(old(View()), Op.Register(topic))
      ensures err == if topic in old(localTopics) then Some(TopicExists) else None
    {
      if topic in localTopics {
        return Some(TopicExists);
      }
      localTopics := localTopics[topic := []];
      registrations := registrations + multiset{topic};
      err := None;
    }

    method CreateWorker(topic: string, name: string) returns (err: Option<Error>)
      requires Fresh(View(), Op.CreateWorker(topic, name))
      modifies this
      ensures View() == Applied(old(View()), Op.CreateWorker(topic, name))
      ensures err == if topic in old(localTopics) then None else Some(TopicNotFound)
    {
      if topic !in localTopics {
        return Some(TopicNotFound);
      }
      localInboxes := localInboxes + {name};
      assert View() == Boxed(old(View()), name);
      StartDispatcher(topic, registrations[topic]);
      err := RegisterWorker(topic, name);
    }

    /** Starts a dispatcher on the queue of the registration looked up, unless the topic is switched on already. */
    method StartDispatcher(topic: string, reg: nat)
      modifies this`dispatchEnabled, this`started
      ensures View() == Started(old(View()), topic, reg)
    {
      OnChanges(dispatchEnabled, topic);
      var shouldStart := !(topic in dispatchEnabled && dispatchEnabled[topic]);
      if shouldStart {
        dispatchEnabled := dispatchEnabled[topic := true];
        started := started + multiset{(topic, reg)};
      }
      assert On(old(dispatchEnabled)) + {topic} == On(dispatchEnabled);
    }

    /** Writes the index whether or not the topic is still there: a worker of a topic that has gone is on no list. */
    method RegisterWorker(topic: string, name: string) returns (err: Option<Error>)
      modifies this`workerIndex, this`localTopics, this`dispatchWorkers, this`dispatchGeneration
      ensures View() == Registered(old(View()), topic, name)
      ensures err == if topic in old(localTopics) then None else Some(TopicNotFound)
      ensures name in workerIndex && (err.None? <==> name in NamesOf(localTopics, topic))
    {
      workerIndex := workerIndex[name := topic];
      if topic !in localTopics {
        assert name !in NamesOf(localTopics, topic);
        return Some(TopicNotFound);
      }
      localTopics := localTopics[topic := localTopics[topic] + [name]];
      assert name in NamesOf(localTopics, topic);
      dispatchWorkers := Push(dispatchWorkers, topic, name);
      dispatchGeneration := dispatchGeneration + 1;
      err := None;
    }

    method DelWorker(name: string) returns (err: Option<Error>)
      modifies this
      ensures View() == Applied(old(View()), Op.DelWorker(name))
      ensures err == if name in old(workerIndex) then None else Some(WorkerNotFound)
    {
      if name !in workerIndex {
        return Some(WorkerNotFound);
      }
      workerIndex := workerIndex - {name};
      localInboxes := localInboxes - {name};
      localTopics := RetainAll(localTopics, name);
      dispatchWorkers := RetainAll(dispatchWorkers, name);
      dispatchGeneration := dispatchGeneration + 1;
      err := None;
    }

    /** Takes every listed worker out of the index and closes its inbox. */
    method AbortAll(names: seq<string>)
      modifies this`workerIndex, this`localInboxes
      ensures workerIndex == old(workerIndex) - Listed(names, old(workerIndex))
      ensures localInboxes == old(localInboxes) - Listed(names, old(workerIndex))
    {
      for i := 0 to |names|
        invariant workerIndex == old(workerIndex) - Listed(names[..i], old(workerIndex))
        invariant localInboxes == old(localInboxes) - Listed(names[..i], old(workerIndex))
      {
        ListedAppend(names[..i], names[i], old(workerIndex));
        assert names[..i + 1] == names[..i] + [names[i]];
        if names[i] in workerIndex {
          workerIndex := workerIndex - {names[i]};
          localInboxes := localInboxes - {names[i]};
        }
      }
      assert names[..|names|] == names;
    }

    /** Succeeds for an unknown topic too, and still bumps the generation. */
    method DelWorkers(topic: string)
      modifies this
      ensures View() == Applied(old(View()), Op.DelWorkers(topic))
    {
      if topic in localTopics {
        AbortAll(localTopics[topic]);
      }
      localTopics := localTopics - {topic};
      dispatchWorkers := dispatchWorkers - {topic};
      OnChanges(dispatchEnabled, topic);
      dispatchEnabled := dispatchEnabled - {topic};
      dispatchGeneration := dispatchGeneration + 1;
    }
  }
}

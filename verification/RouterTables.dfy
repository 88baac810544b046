/**
 The router's tables: topics with their workers, the worker index, the lists the
 dispatchers read, the inboxes, and the generation that tells dispatchers to
 refresh. Each operation changes several tables; together they stay consistent.
 */
module RouterTables {
  datatype Error = TopicExists | TopicNotFound | WorkerNotFound

  /**
   A snapshot of the tables. The last two fields are history: how often each topic
   was registered, and how often a dispatcher was started on the queue of each of its
   registrations, numbered from 1.
   */
  datatype Tables = Tables(
    topics: map<string, seq<string>>,
    index: map<string, string>,
    dispatch: map<string, seq<string>>,
    enabled: set<string>,
    inboxes: set<string>,
    generation: nat,
    registrations: multiset<string>,
    started: multiset<(string, nat)>)

  const EMPTY := Tables(map[], map[], map[], {}, {}, 0, multiset{}, multiset{})

  /** A list without one name. */
  function Without(names: seq<string>, name: string): (r: seq<string>)
    ensures forall n :: n in r <==> n in names && n != name
  {
    if names == [] then []
    else if names[0] == name then Without(names[1..], name)
    else [names[0]] + Without(names[1..], name)
  }

  /** Parts of a list are cut one by one, so the other names stay as often as they were and in their order. */
  lemma {:induction false} WithoutCutsInPlace(a: seq<string>, b: seq<string>, name: string)
    ensures Without(a + b, name) == Without(a, name) + Without(b, name)
  {
    if a == [] {
      assert a + b == b;
    } else {
      assert (a + b)[0] == a[0] && (a + b)[1..] == a[1..] + b;
      WithoutCutsInPlace(a[1..], b, name);
    }
  }

  function NamesOf(lists: map<string, seq<string>>, topic: string): seq<string> {
    if topic in lists then lists[topic] else []
  }

  function AllWithout(lists: map<string, seq<string>>, name: string): map<string, seq<string>> {
    map t | t in lists :: Without(lists[t], name)
  }

  /** The indexed workers among some names. */
  function Listed(names: seq<string>, index: map<string, string>): set<string> {
    set n | n in names && n in index
  }

  // ---- Operations ----------------------------------------------------------

  datatype Op =
    | Register(topic: string)
    | CreateWorker(topic: string, name: string)
    | DelWorker(name: string)
    | DelWorkers(topic: string)

  /** Names carry a fresh UUID. */
  predicate Fresh(t: Tables, op: Op) {
    op.CreateWorker? ==> op.name !in t.index && op.name !in t.inboxes
  }

  /** The parts of creating a worker, in their order: its inbox, the topic's dispatcher, its registration. */
  function Boxed(t: Tables, name: string): Tables {
    t.(inboxes := t.inboxes + {name})
  }

  /** The dispatcher reads the queue of the registration that was looked up. */
  function Started(t: Tables, topic: string, reg: nat): Tables {
    t.(enabled := t.enabled + {topic},
       started := if topic in t.enabled then t.started else t.started + multiset{(topic, reg)})
  }

  /** The index is written even when the topic has gone. */
  function Registered(t: Tables, topic: string, name: string): Tables {
    var t' := t.(index := t.index[name := topic]);
    if topic !in t.topics then t'
    else
      t'.(topics := t.topics[topic := t.topics[topic] + [name]],
          dispatch := t.dispatch[topic := NamesOf(t.dispatch, topic) + [name]],
          generation := t.generation + 1)
  }

  function Applied(t: Tables, op: Op): Tables {
    match op
    case Register(topic) =>
      if topic in t.topics then t
      else t.(topics := t.topics[topic := []], registrations := t.registrations + multiset{topic})
    case CreateWorker(topic, name) =>
      if topic !in t.topics then t else Registered(Started(Boxed(t, name), topic, t.registrations[topic]), topic, name)
    case DelWorker(name) =>
      if name !in t.index then t
      else
        t.(index := t.index - {name},
           inboxes := t.inboxes - {name},
           topics := AllWithout(t.topics, name),
           dispatch := AllWithout(t.dispatch, name),
           generation := t.generation + 1)
    case DelWorkers(topic) =>
      var gone := Listed(NamesOf(t.topics, topic), t.index);
      t.(index := t.index - gone,
         inboxes := t.inboxes - gone,
         topics := t.topics - {topic},
         dispatch := t.dispatch - {topic},
         enabled := t.enabled - {topic},
         generation := t.generation + 1)
  }

  // ---- Consistency ---------------------------------------------------------

  predicate NoDuplicates(names: seq<string>) {
    forall i, j :: 0 <= i < j < |names| ==> names[i] != names[j]
  }

  /** The dispatchers read exactly the topics' worker lists. */
  ghost predicate SameLists(t: Tables) {
    forall topic :: NamesOf(t.dispatch, topic) == NamesOf(t.topics, topic)
  }

  /** A name is on a topic's list exactly when the index files it under that topic. */
  ghost predicate Indexed(t: Tables) {
    && (forall n, topic :: n in NamesOf(t.topics, topic) <==> n in t.index && t.index[n] == topic)
    && (forall topic :: NoDuplicates(NamesOf(t.topics, topic)))
    && t.inboxes == t.index.Keys
  }

  /**
   No registration of a topic has two dispatchers, and none that is still to come has
   any. The present one has exactly one if the topic is switched on, as it is once it
   has workers, and none before.
   */
  ghost predicate Served(t: Tables, topic: string) {
    && (forall r: nat :: t.started[(topic, r)] <= 1)
    && (forall r: nat :: r > t.registrations[topic] ==> t.started[(topic, r)] == 0)
    && (topic in t.enabled ==> topic in t.topics && t.started[(topic, t.registrations[topic])] == 1)
    && (topic in t.topics && topic !in t.enabled ==> t.started[(topic, t.registrations[topic])] == 0)
    && (NamesOf(t.topics, topic) != [] ==> topic in t.enabled)
  }

  ghost predicate OneDispatcher(t: Tables) {
    forall topic :: Served(t, topic)
  }

  ghost predicate Consistent(t: Tables) {
    SameLists(t) && Indexed(t) && OneDispatcher(t)
  }

  lemma {:induction false} WithoutNoDuplicates(names: seq<string>, name: string)
    requires NoDuplicates(names)
    ensures NoDuplicates(Without(names, name))
  {
    if names != [] {
      assert NoDuplicates(names[1..]);
      WithoutNoDuplicates(names[1..], name);
      assert forall j :: 1 <= j < |names| ==> names[0] != names[j];
      assert names[0] !in names[1..];
    }
  }

  lemma AllWithoutNames(lists: map<string, seq<string>>, name: string, topic: string)
    ensures NamesOf(AllWithout(lists, name), topic) == Without(NamesOf(lists, topic), name)
  {
  }

  lemma CreateKeeps(t: Tables, topic: string, name: string)
    requires SameLists(t) && Indexed(t) && Fresh(t, CreateWorker(topic, name)) && topic in t.topics
    ensures SameLists(Applied(t, CreateWorker(topic, name))) && Indexed(Applied(t, CreateWorker(topic, name)))
  {
    var t' := Applied(t, CreateWorker(topic, name));
    forall other
      ensures NamesOf(t'.dispatch, other) == NamesOf(t'.topics, other)
      ensures NoDuplicates(NamesOf(t'.topics, other))
      ensures forall n :: n in NamesOf(t'.topics, other) <==> n in t'.index && t'.index[n] == other
    {
      assert NamesOf(t.dispatch, other) == NamesOf(t.topics, other);
      assert NoDuplicates(NamesOf(t.topics, other));
      assert name !in NamesOf(t.topics, other);
    }
  }

  lemma DelWorkerKeeps(t: Tables, name: string)
    requires SameLists(t) && Indexed(t) && name in t.index
    ensures SameLists(Applied(t, DelWorker(name))) && Indexed(Applied(t, DelWorker(name)))
  {
    var t' := Applied(t, DelWorker(name));
    forall topic
      ensures NamesOf(t'.dispatch, topic) == NamesOf(t'.topics, topic)
      ensures NoDuplicates(NamesOf(t'.topics, topic))
      ensures forall n :: n in NamesOf(t'.topics, topic) <==> n in t'.index && t'.index[n] == topic
    {
      assert NamesOf(t.dispatch, topic) == NamesOf(t.topics, topic);
      assert NoDuplicates(NamesOf(t.topics, topic));
      AllWithoutNames(t.topics, name, topic);
      AllWithoutNames(t.dispatch, name, topic);
      WithoutNoDuplicates(NamesOf(t.topics, topic), name);
    }
  }

  lemma DelWorkersKeeps(t: Tables, topic: string)
    requires SameLists(t) && Indexed(t)
    ensures SameLists(Applied(t, DelWorkers(topic))) && Indexed(Applied(t, DelWorkers(topic)))
  {
    var t' := Applied(t, DelWorkers(topic));
    forall other
      ensures NamesOf(t'.dispatch, other) == NamesOf(t'.topics, other)
      ensures NoDuplicates(NamesOf(t'.topics, other))
      ensures forall n :: n in NamesOf(t'.topics, other) <==> n in t'.index && t'.index[n] == other
    {
      assert NamesOf(t.dispatch, other) == NamesOf(t.topics, other);
      assert NoDuplicates(NamesOf(t.topics, other));
    }
  }

  lemma StepKeepsLists(t: Tables, op: Op)
    requires SameLists(t) && Indexed(t) && Fresh(t, op)
    ensures SameLists(Applied(t, op)) && Indexed(Applied(t, op))
  {
    match op {
      case Register(topic) =>
        var t' := Applied(t, op);
        assert forall other :: NamesOf(t'.topics, other) == NamesOf(t.topics, other);
      case CreateWorker(topic, name) =>
        if topic in t.topics {
          CreateKeeps(t, topic, name);
        }
      case DelWorker(name) =>
        if name in t.index {
          DelWorkerKeeps(t, name);
        }
      case DelWorkers(topic) => DelWorkersKeeps(t, topic);
    }
  }

  lemma StepKeepsServed(t: Tables, op: Op, topic: string)
    requires Served(t, topic)
    ensures Served(Applied(t, op), topic)
  {
    if op.DelWorker? {
      AllWithoutNames(t.topics, op.name, topic);
    }
  }

  lemma StepKeepsConsistent(t: Tables, op: Op)
    requires Consistent(t) && Fresh(t, op)
    ensures Consistent(Applied(t, op))
  {
    StepKeepsLists(t, op);
    forall topic
      ensures Served(Applied(t, op), topic)
    {
      assert Served(t, topic);
      StepKeepsServed(t, op, topic);
    }
  }

  // ---- What each operation does --------------------------------------------

  /** Some table names the worker. */
  ghost predicate Mentions(t: Tables, n: string) {
    n in t.index || n in t.inboxes || exists topic :: n in NamesOf(t.topics, topic) || n in NamesOf(t.dispatch, topic)
  }

  /** The tables say the same about a worker. */
  ghost predicate SameAbout(t: Tables, t': Tables, n: string) {
    && (n in t'.index <==> n in t.index) && (n in t.index && n in t'.index ==> t'.index[n] == t.index[n])
    && (n in t'.inboxes <==> n in t.inboxes)
    && (forall topic :: n in NamesOf(t'.topics, topic) <==> n in NamesOf(t.topics, topic))
    && (forall topic :: n in NamesOf(t'.dispatch, topic) <==> n in NamesOf(t.dispatch, topic))
  }

  /** The tables say the same about a topic as such. */
  predicate SameTopic(t: Tables, t': Tables, topic: string) {
    && (topic in t'.topics <==> topic in t.topics) && (topic in t'.enabled <==> topic in t.enabled)
    && t'.registrations[topic] == t.registrations[topic]
  }

  /** A deleted worker is named by no table any more, and nothing else changes; an unknown one changes nothing. */
  lemma DelWorkerRemovesExactly(t: Tables, name: string, n: string, topic: string)
    ensures
      var t' := Applied(t, DelWorker(name));
      && (name in t.index ==> !Mentions(t', name) && t'.generation == t.generation + 1)
      && (name !in t.index ==> t' == t)
      && (n != name ==> SameAbout(t, t', n)) && SameTopic(t, t', topic) && t'.started == t.started
  {
    forall other
      ensures NamesOf(AllWithout(t.topics, name), other) == Without(NamesOf(t.topics, other), name)
      ensures NamesOf(AllWithout(t.dispatch, name), other) == Without(NamesOf(t.dispatch, other), name)
    {
      AllWithoutNames(t.topics, name, other);
      AllWithoutNames(t.dispatch, name, other);
    }
  }

  /** A created worker is indexed, has an inbox and is last on its topic's two lists; on an unknown topic nothing changes. */
  lemma CreateWorkerAddsExactly(t: Tables, topic: string, name: string, n: string, other: string)
    ensures
      var t' := Applied(t, CreateWorker(topic, name));
      && (topic !in t.topics ==> t' == t)
      && (topic in t.topics ==>
            && name in t'.index && t'.index[name] == topic && name in t'.inboxes && topic in t'.enabled
            && NamesOf(t'.topics, topic) == NamesOf(t.topics, topic) + [name]
            && NamesOf(t'.dispatch, topic) == NamesOf(t.dispatch, topic) + [name]
            && t'.generation == t.generation + 1)
      && (n != name ==> SameAbout(t, t', n))
      && (other != topic ==> SameTopic(t, t', other) && NamesOf(t'.topics, other) == NamesOf(t.topics, other))
  {
  }

  /** Deleting a topic takes it and exactly its workers out of every table; the generation moves on in any case. */
  lemma DelWorkersRemovesExactly(t: Tables, topic: string, n: string, other: string)
    requires Consistent(t)
    ensures
      var t' := Applied(t, DelWorkers(topic));
      && topic !in t'.topics && topic !in t'.enabled && NamesOf(t'.dispatch, topic) == []
      && (n in t.index && t.index[n] == topic ==> !Mentions(t', n))
      && (!(n in t.index && t.index[n] == topic) ==> SameAbout(t, t', n))
      && (other != topic ==> SameTopic(t, t', other) && NamesOf(t'.topics, other) == NamesOf(t.topics, other))
      && t'.generation == t.generation + 1
  {
    StepKeepsConsistent(t, DelWorkers(topic));
    assert Served(t, topic);
    assert n in NamesOf(t.topics, topic) <==> n in t.index && t.index[n] == topic;
  }

  /** Registering adds the topic with no workers and not switched on; a known topic stays as it is. */
  lemma RegisterAddsExactly(t: Tables, topic: string, n: string, other: string)
    requires Consistent(t)
    ensures
      var t' := Applied(t, Register(topic));
      && (topic in t.topics ==> t' == t)
      && (topic !in t.topics ==>
            && topic in t'.topics && t'.topics[topic] == [] && topic !in t'.enabled
            && t'.registrations[topic] == t.registrations[topic] + 1)
      && SameAbout(t, t', n) && t'.generation == t.generation && t'.started == t.started
      && (other != topic ==> SameTopic(t, t', other))
  {
    assert Served(t, topic);
  }

  // ---- Sequences of operations ---------------------------------------------

  function After(ops: seq<Op>): Tables {
    if ops == [] then EMPTY else Applied(After(ops[..|ops| - 1]), ops[|ops| - 1])
  }

  ghost predicate AllFresh(ops: seq<Op>) {
    forall i :: 0 <= i < |ops| ==> Fresh(After(ops[..i]), ops[i])
  }

  /** Every sequence of operations leaves the tables consistent. */
  lemma {:induction false} TablesStayConsistent(ops: seq<Op>)
    requires AllFresh(ops)
    ensures Consistent(After(ops))
  {
    if ops != [] {
      var shorter := ops[..|ops| - 1];
      assert forall i :: 0 <= i < |shorter| ==> shorter[..i] == ops[..i];
      TablesStayConsistent(shorter);
      assert Fresh(After(ops[..|ops| - 1]), ops[|ops| - 1]);
      StepKeepsConsistent(After(shorter), ops[|ops| - 1]);
    }
  }

  /** The topic was registered and not deleted since. */
  ghost predicate Known(ops: seq<Op>, topic: string) {
    exists j :: 0 <= j < |ops| && ops[j] == Register(topic) && Undeleted(ops, j + 1, topic)
  }

  /** No operation from the `i`-th on deletes the topic. */
  ghost predicate Undeleted(ops: seq<Op>, i: nat, topic: string) {
    forall k :: i <= k < |ops| ==> ops[k] != DelWorkers(topic)
  }

  /** The worker was created on a known topic, and neither it nor the topic was deleted since. */
  ghost predicate There(ops: seq<Op>, topic: string, n: string) {
    exists i :: ThereSince(ops, i, topic, n)
  }

  ghost predicate ThereSince(ops: seq<Op>, i: nat, topic: string, n: string) {
    i < |ops| && ops[i] == CreateWorker(topic, n) && Known(ops[..i], topic) && Spared(ops, i + 1, topic, n)
  }

  ghost predicate Spared(ops: seq<Op>, i: nat, topic: string, n: string) {
    Undeleted(ops, i, topic) && forall k :: i <= k < |ops| ==> ops[k] != DelWorker(n)
  }

  lemma KnownGrows(front: seq<Op>, op: Op, topic: string)
    ensures Known(front + [op], topic) <==> op == Register(topic) || (Known(front, topic) && op != DelWorkers(topic))
  {
    var ops := front + [op];
    if Known(front, topic) && op != DelWorkers(topic) {
      var j :| 0 <= j < |front| && front[j] == Register(topic) && Undeleted(front, j + 1, topic);
      assert ops[j] == Register(topic) && Undeleted(ops, j + 1, topic);
    }
    if op == Register(topic) {
      assert ops[|front|] == op && Undeleted(ops, |front| + 1, topic);
    }
    if Known(ops, topic) && op != Register(topic) {
      var j :| 0 <= j < |ops| && ops[j] == Register(topic) && Undeleted(ops, j + 1, topic);
      assert ops[|front|] == op;
      assert front[j] == ops[j] && forall k :: j + 1 <= k < |front| ==> front[k] == ops[k];
      assert Undeleted(front, j + 1, topic);
    }
  }

  lemma SparedGrows(front: seq<Op>, op: Op, i: nat, topic: string, n: string)
    requires i <= |front|
    ensures Spared(front + [op], i, topic, n) <==> Spared(front, i, topic, n) && op != DelWorkers(topic) && op != DelWorker(n)
  {
    var ops := front + [op];
    assert ops[|front|] == op && forall k :: 0 <= k < |front| ==> ops[k] == front[k];
  }

  lemma ThereGrows(front: seq<Op>, op: Op, topic: string, n: string)
    ensures There(front + [op], topic, n) <==>
              || (op == CreateWorker(topic, n) && Known(front, topic))
              || (There(front, topic, n) && op != DelWorkers(topic) && op != DelWorker(n))
  {
    var ops := front + [op];
    assert ops[|front|] == op && ops[..|front|] == front;
    assert op == CreateWorker(topic, n) && Known(front, topic) ==> ThereSince(ops, |front|, topic, n);
    forall i: nat | i < |front|
      ensures ThereSince(ops, i, topic, n) <==> ThereSince(front, i, topic, n) && op != DelWorkers(topic) && op != DelWorker(n)
    {
      SparedGrows(front, op, i + 1, topic, n);
      assert ops[i] == front[i] && ops[..i] == front[..i];
    }
  }

  /** After any operations a topic is in the tables exactly if it was registered and not deleted since. */
  lemma {:induction false} TopicIsThereExactlyIfKnown(ops: seq<Op>, topic: string)
    ensures topic in After(ops).topics <==> Known(ops, topic)
  {
    if ops != [] {
      var front, op := ops[..|ops| - 1], ops[|ops| - 1];
      assert ops == front + [op];
      TopicIsThereExactlyIfKnown(front, topic);
      KnownGrows(front, op, topic);
    }
  }

  lemma StepLists(t: Tables, op: Op, topic: string, n: string)
    requires Consistent(t) && Fresh(t, op)
    ensures n in NamesOf(Applied(t, op).topics, topic) <==>
              || (op == CreateWorker(topic, n) && topic in t.topics)
              || (n in NamesOf(t.topics, topic) && op != DelWorkers(topic) && op != DelWorker(n))
  {
    match op {
      case Register(_) =>
      case CreateWorker(_, _) =>
      case DelWorker(name) =>
        AllWithoutNames(t.topics, name, topic);
        assert n in NamesOf(t.topics, topic) ==> n in t.index;
      case DelWorkers(_) =>
    }
  }

  lemma TablesAgree(t: Tables, topic: string, n: string)
    requires Consistent(t)
    ensures n in NamesOf(t.dispatch, topic) <==> n in NamesOf(t.topics, topic)
    ensures n in t.index && t.index[n] == topic <==> n in NamesOf(t.topics, topic)
    ensures n in NamesOf(t.topics, topic) ==> n in t.inboxes
  {
    assert NamesOf(t.dispatch, topic) == NamesOf(t.topics, topic);
  }

  lemma FreshPrefix(ops: seq<Op>)
    requires AllFresh(ops) && ops != []
    ensures AllFresh(ops[..|ops| - 1]) && Fresh(After(ops[..|ops| - 1]), ops[|ops| - 1])
  {
    var front := ops[..|ops| - 1];
    assert forall i :: 0 <= i < |front| ==> front[..i] == ops[..i];
  }

  lemma FrontIsConsistent(ops: seq<Op>)
    requires AllFresh(ops) && ops != []
    ensures AllFresh(ops[..|ops| - 1]) && Consistent(After(ops[..|ops| - 1])) && Fresh(After(ops[..|ops| - 1]), ops[|ops| - 1])
  {
    FreshPrefix(ops);
    TablesStayConsistent(ops[..|ops| - 1]);
  }

  lemma OneMoreOp(front: seq<Op>, op: Op)
    ensures After(front + [op]) == Applied(After(front), op)
  {
    assert (front + [op])[..|front|] == front;
  }

  lemma LastListed(front: seq<Op>, op: Op, topic: string, n: string)
    requires Consistent(After(front)) && Fresh(After(front), op)
    requires n in NamesOf(After(front).topics, topic) <==> There(front, topic, n)
    ensures n in NamesOf(Applied(After(front), op).topics, topic) <==> There(front + [op], topic, n)
  {
    TopicIsThereExactlyIfKnown(front, topic);
    StepLists(After(front), op, topic, n);
    ThereGrows(front, op, topic, n);
  }

  lemma {:induction false} ListedExactlyIfThere(ops: seq<Op>, topic: string, n: string)
    requires AllFresh(ops)
    ensures n in NamesOf(After(ops).topics, topic) <==> There(ops, topic, n)
  {
    if ops != [] {
      var front, op := ops[..|ops| - 1], ops[|ops| - 1];
      FrontIsConsistent(ops);
      ListedExactlyIfThere(front, topic, n);
      LastListed(front, op, topic, n);
      OneMoreOp(front, op);
      assert ops == front + [op];
    }
  }

  /**
   After any operations a worker is on a topic's two lists, indexed under it and has an
   inbox, exactly if it was created there on a known topic and neither of the two was
   deleted since.
   */
  lemma WorkerIsThereExactlyIf(ops: seq<Op>, topic: string, n: string)
    requires AllFresh(ops)
    ensures
      var t := After(ops);
      && (n in NamesOf(t.topics, topic) <==> There(ops, topic, n))
      && (n in NamesOf(t.dispatch, topic) <==> There(ops, topic, n))
      && (n in t.index && t.index[n] == topic <==> There(ops, topic, n))
      && (There(ops, topic, n) ==> n in t.inboxes)
  {
    TablesStayConsistent(ops);
    ListedExactlyIfThere(ops, topic, n);
    TablesAgree(After(ops), topic, n);
  }
}

/**
 Creating a worker is not one step: the topic is looked up, and its lock dropped,
 before the inbox, the dispatcher and the registration follow. Here any number of
 creates interleave with each other and with the other table operations.
 */
module CreateRace {
  import opened Messages
  import opened RouterTables

  /** How far a create has come; `reg` numbers the registration of the topic whose queue it looked up. */
  datatype Create =
    | Looked(topic: string, reg: nat)
    | Boxing(topic: string, reg: nat, name: string)
    | Starting(topic: string, reg: nat, name: string)

  /** The last two fields are history: names ever used, and topics deleted under a create. */
  datatype State = State(
    t: Tables,
    creates: map<nat, Create>,
    used: set<string>,
    overtaken: set<string>)

  datatype Step =
    | AddTopic(topic: string)
    | RemoveWorker(name: string)
    | RemoveTopic(topic: string)
    | Look(c: nat, topic: string)
    | PutInbox(c: nat, name: string)
    | Start(c: nat)
    | Finish(c: nat)

  predicate Enabled(s: State, step: Step) {
    match step
    case Look(c, topic) => c !in s.creates && topic in s.t.topics
    case PutInbox(c, name) => c in s.creates && s.creates[c].Looked? && name !in s.used
    case Start(c) => c in s.creates && s.creates[c].Boxing?
    case Finish(c) => c in s.creates && s.creates[c].Starting?
    case _ => true
  }

  /** Some create has looked the topic up and has yet to register its worker. */
  ghost predicate Creating(s: State, topic: string) {
    exists c :: c in s.creates && s.creates[c].topic == topic
  }

  ghost function Next(s: State, step: Step): State
    requires Enabled(s, step)
  {
    match step
    case AddTopic(topic) => s.(t := Applied(s.t, Op.Register(topic)))
    case RemoveWorker(name) => s.(t := Applied(s.t, Op.DelWorker(name)))
    case RemoveTopic(topic) =>
      s.(t := Applied(s.t, Op.DelWorkers(topic)), overtaken := if Creating(s, topic) then s.overtaken + {topic} else s.overtaken)
    case Look(c, topic) => s.(creates := s.creates[c := Looked(topic, s.t.registrations[topic])])
    case PutInbox(c, name) =>
      s.(t := Boxed(s.t, name), used := s.used + {name},
         creates := s.creates[c := Boxing(s.creates[c].topic, s.creates[c].reg, name)])
    case Start(c) =>
      var p := s.creates[c];
      s.(t := Started(s.t, p.topic, p.reg), creates := s.creates[c := Starting(p.topic, p.reg, p.name)])
    case Finish(c) => s.(t := Registered(s.t, s.creates[c].topic, s.creates[c].name), creates := s.creates - {c})
  }

  predicate Initial(s: State) {
    s == State(EMPTY, map[], {}, {})
  }

  ghost predicate StepAt(states: seq<State>, steps: seq<Step>, i: nat)
    requires |states| == |steps| + 1 && i < |steps|
  {
    Enabled(states[i], steps[i]) && states[i + 1] == Next(states[i], steps[i])
  }

  ghost predicate IsRun(states: seq<State>, steps: seq<Step>) {
    && |states| == |steps| + 1 && Initial(states[0])
    && forall i :: 0 <= i < |steps| ==> StepAt(states, steps, i)
  }

  // ---- What holds whatever overtakes what -----------------------------------------

  /** The names of workers that have an inbox and are not registered yet. */
  function Flying(creates: map<nat, Create>): set<string> {
    set c | c in creates && !creates[c].Looked? :: creates[c].name
  }

  /** A listed name is in the index under that topic, once, and on the dispatch list too. */
  ghost predicate ListOk(t: Tables, topic: string) {
    && NamesOf(t.dispatch, topic) == NamesOf(t.topics, topic)
    && NoDuplicates(NamesOf(t.topics, topic))
    && forall n :: n in NamesOf(t.topics, topic) ==> n in t.index && t.index[n] == topic
  }

  ghost predicate NamesOk(s: State) {
    && s.t.inboxes == s.t.index.Keys + Flying(s.creates)
    && s.t.inboxes <= s.used
    && (forall c :: c in s.creates && !s.creates[c].Looked? ==> s.creates[c].name !in s.t.index)
    && (forall c, d :: c in s.creates && d in s.creates && c != d && !s.creates[c].Looked? && !s.creates[d].Looked? ==>
          s.creates[c].name != s.creates[d].name)
  }

  /** Dispatchers and creates never refer to a registration that is still to come. */
  ghost predicate Past(s: State) {
    && (forall topic, r: nat :: r > s.t.registrations[topic] ==> s.t.started[(topic, r)] == 0)
    && (forall c :: c in s.creates ==> s.creates[c].reg <= s.t.registrations[s.creates[c].topic])
  }

  ghost predicate Sound(s: State) {
    && NamesOk(s)
    && (forall topic :: ListOk(s.t, topic))
    && Past(s)
  }

  // ---- What holds of a topic that was not deleted under a create --------------------

  /** Every indexed worker of the topic is listed, and its registrations are served as they should be. */
  ghost predicate WellKept(s: State, topic: string) {
    && (forall n :: n in s.t.index && s.t.index[n] == topic ==> n in NamesOf(s.t.topics, topic))
    && Served(s.t, topic)
  }

  ghost predicate Current(s: State, topic: string) {
    forall c :: c in s.creates && s.creates[c].topic == topic ==>
      && topic in s.t.topics && s.creates[c].reg == s.t.registrations[topic]
      && (s.creates[c].Starting? ==> topic in s.t.enabled)
  }

  ghost predicate Inv(s: State) {
    Sound(s) && forall topic :: topic !in s.overtaken ==> WellKept(s, topic) && Current(s, topic)
  }

  lemma ListStaysOk(s: State, step: Step, topic: string)
    requires Enabled(s, step) && NamesOk(s) && ListOk(s.t, topic)
    requires step.RemoveTopic? ==> ListOk(s.t, step.topic)
    ensures ListOk(Next(s, step).t, topic)
  {
    match step
    case RemoveWorker(name) =>
      AllWithoutNames(s.t.topics, name, topic);
      AllWithoutNames(s.t.dispatch, name, topic);
      WithoutNoDuplicates(NamesOf(s.t.topics, topic), name);
    case Finish(c) =>
      assert s.creates[c].name !in NamesOf(s.t.topics, topic);
    case _ =>
  }

  function NameOf(p: Create): set<string> {
    if p.Looked? then {} else {p.name}
  }

  lemma FlyingWith(creates: map<nat, Create>, c: nat)
    requires c in creates
    ensures Flying(creates) == Flying(creates - {c}) + NameOf(creates[c])
  {
    var rest := creates - {c};
    forall n | n in Flying(rest) + NameOf(creates[c])
      ensures n in Flying(creates)
    {
      if n in Flying(rest) {
        var d :| d in rest && !rest[d].Looked? && rest[d].name == n;
        assert creates[d].name == n;
      }
    }
    forall n | n in Flying(creates)
      ensures n in Flying(rest) + NameOf(creates[c])
    {
      var d :| d in creates && !creates[d].Looked? && creates[d].name == n;
      assert d != c ==> d in rest && rest[d].name == n;
    }
  }

  /** Replacing a create replaces its name. */
  lemma FlyingChanges(creates: map<nat, Create>, c: nat, p: Create)
    ensures Flying(creates[c := p]) == Flying(creates - {c}) + NameOf(p)
    ensures Flying(creates) == Flying(creates - {c}) + (if c in creates then NameOf(creates[c]) else {})
  {
    FlyingWith(creates[c := p], c);
    assert creates[c := p] - {c} == creates - {c};
    if c in creates {
      FlyingWith(creates, c);
    } else {
      assert creates - {c} == creates;
    }
  }

  lemma InboxesFollow(s: State, step: Step)
    requires Enabled(s, step) && NamesOk(s)
    ensures Next(s, step).t.inboxes == Next(s, step).t.index.Keys + Flying(Next(s, step).creates)
  {
    match step
    case Look(c, topic) => FlyingChanges(s.creates, c, Next(s, step).creates[c]);
    case PutInbox(c, name) => FlyingChanges(s.creates, c, Next(s, step).creates[c]);
    case Start(c) => FlyingChanges(s.creates, c, Next(s, step).creates[c]);
    case Finish(c) =>
      FlyingChanges(s.creates, c, s.creates[c]);
      assert s.creates[c].name !in Flying(s.creates - {c});
    case RemoveWorker(name) =>
      assert name in s.t.index ==> name !in Flying(s.creates);
    case RemoveTopic(topic) =>
      assert Flying(s.creates) !! s.t.index.Keys;
    case AddTopic(_) =>
  }

  lemma StepKeepsNames(s: State, step: Step)
    requires Enabled(s, step) && NamesOk(s)
    ensures NamesOk(Next(s, step))
  {
    InboxesFollow(s, step);
    var s' := Next(s, step);
    forall c | c in s'.creates && !s'.creates[c].Looked?
      ensures s'.creates[c].name !in s'.t.index
    {
      assert c in s.creates && !s.creates[c].Looked? ==> s.creates[c].name in Flying(s.creates);
    }
    assert forall c :: c in s.creates && !s.creates[c].Looked? ==> s.creates[c].name in Flying(s.creates);
  }

  lemma StepKeepsPast(s: State, step: Step)
    requires Enabled(s, step) && Past(s)
    ensures Past(Next(s, step))
  {
  }

  lemma StepKeepsSound(s: State, step: Step)
    requires Enabled(s, step) && Sound(s)
    ensures Sound(Next(s, step))
  {
    StepKeepsNames(s, step);
    StepKeepsPast(s, step);
    forall topic
      ensures ListOk(Next(s, step).t, topic)
    {
      assert ListOk(s.t, topic);
      ListStaysOk(s, step, topic);
    }
  }

  lemma ListedStay(s: State, step: Step, topic: string, n: string)
    requires Enabled(s, step) && NamesOk(s) && ListOk(s.t, topic) && WellKept(s, topic) && Current(s, topic)
    requires step.RemoveTopic? ==> ListOk(s.t, step.topic)
    requires topic !in Next(s, step).overtaken
    requires n in Next(s, step).t.index && Next(s, step).t.index[n] == topic
    ensures n in NamesOf(Next(s, step).t.topics, topic)
  {
    if step.RemoveWorker? {
      AllWithoutNames(s.t.topics, step.name, topic);
    }
  }

  lemma ServedStay(s: State, step: Step, topic: string)
    requires Enabled(s, step) && WellKept(s, topic) && Current(s, topic) && topic !in Next(s, step).overtaken
    ensures Served(Next(s, step).t, topic)
  {
    match step
    case AddTopic(t) => StepKeepsServed(s.t, Op.Register(t), topic);
    case RemoveWorker(n) => StepKeepsServed(s.t, Op.DelWorker(n), topic);
    case RemoveTopic(t) => StepKeepsServed(s.t, Op.DelWorkers(t), topic);
    case _ =>
  }

  lemma StepKeepsCurrent(s: State, step: Step, topic: string)
    requires Enabled(s, step) && WellKept(s, topic) && Current(s, topic) && topic !in Next(s, step).overtaken
    ensures Current(Next(s, step), topic)
  {
  }

  lemma StepKeepsTopic(s: State, step: Step, topic: string)
    requires Enabled(s, step) && Sound(s) && WellKept(s, topic) && Current(s, topic) && topic !in Next(s, step).overtaken
    ensures WellKept(Next(s, step), topic) && Current(Next(s, step), topic)
  {
    assert ListOk(s.t, topic) && (step.RemoveTopic? ==> ListOk(s.t, step.topic));
    forall n | n in Next(s, step).t.index && Next(s, step).t.index[n] == topic
      ensures n in NamesOf(Next(s, step).t.topics, topic)
    {
      ListedStay(s, step, topic, n);
    }
    ServedStay(s, step, topic);
    StepKeepsCurrent(s, step, topic);
  }

  lemma StepKeepsInv(s: State, step: Step)
    requires Enabled(s, step) && Inv(s)
    ensures Inv(Next(s, step))
  {
    StepKeepsSound(s, step);
    forall topic | topic !in Next(s, step).overtaken
      ensures WellKept(Next(s, step), topic) && Current(Next(s, step), topic)
    {
      assert topic !in s.overtaken;
      StepKeepsTopic(s, step, topic);
    }
  }

  lemma {:induction false} RunKeepsInv(states: seq<State>, steps: seq<Step>, n: nat)
    requires IsRun(states, steps) && n < |states|
    ensures Inv(states[n])
  {
    if n > 0 {
      assert StepAt(states, steps, n - 1);
      RunKeepsInv(states, steps, n - 1);
      StepKeepsInv(states[n - 1], steps[n - 1]);
    }
  }

  // ---- The main results --------------------------------------------------------------

  /**
   In every interleaving, a topic that was never deleted under a create is in order:
   its workers are exactly the indexed ones, no registration of it has ever had two
   dispatchers, and once it has workers the present one has exactly one.
   */
  lemma TopicsStayInOrder(states: seq<State>, steps: seq<Step>, n: nat, topic: string)
    requires IsRun(states, steps) && n < |states| && topic !in states[n].overtaken
    ensures
      var t := states[n].t;
      && (forall w :: w in NamesOf(t.topics, topic) <==> w in t.index && t.index[w] == topic)
      && NamesOf(t.dispatch, topic) == NamesOf(t.topics, topic)
      && (forall r: nat :: t.started[(topic, r)] <= 1)
      && (NamesOf(t.topics, topic) != [] ==> t.started[(topic, t.registrations[topic])] == 1)
  {
    RunKeepsInv(states, steps, n);
    assert ListOk(states[n].t, topic) && WellKept(states[n], topic);
  }

  /** With no create under way and none overtaken, the tables are as consistent as if creates were single steps. */
  lemma QuietTablesAreConsistent(states: seq<State>, steps: seq<Step>, n: nat)
    requires IsRun(states, steps) && n < |states| && states[n].creates == map[] && states[n].overtaken == {}
    ensures Consistent(states[n].t)
  {
    RunKeepsInv(states, steps, n);
    var s := states[n];
    assert Flying(s.creates) == {};
    forall topic
      ensures NamesOf(s.t.dispatch, topic) == NamesOf(s.t.topics, topic) && NoDuplicates(NamesOf(s.t.topics, topic))
      ensures forall n :: n in NamesOf(s.t.topics, topic) <==> n in s.t.index && s.t.index[n] == topic
      ensures Served(s.t, topic)
    {
      assert ListOk(s.t, topic) && WellKept(s, topic);
    }
  }

  /** The operations beside the creates do what they do alone. */
  lemma OthersAreSingleSteps(s: State, step: Step)
    requires step.AddTopic? || step.RemoveWorker? || step.RemoveTopic?
    ensures
      var t := Next(s, step).t;
      match step
      case AddTopic(topic) => topic in t.topics && (topic in s.t.topics ==> t == s.t)
      case RemoveWorker(name) => if name in s.t.index then !Mentions(t, name) else t == s.t
      case RemoveTopic(topic) =>
        topic !in t.topics && topic !in t.enabled && forall n :: n in NamesOf(s.t.topics, topic) ==> n !in t.index
      case _ => true
    ensures Next(s, step).creates == s.creates && Next(s, step).used == s.used
  {
    if step.RemoveWorker? {
      DelWorkerRemovesExactly(s.t, step.name, step.name, "");
    }
  }

  // ---- The other half: a create that is overtaken ----------------------------------------

  /** Where the steps lead from a state, if they can all be taken. */
  ghost function After(s: State, steps: seq<Step>): Option<State> {
    if steps == [] then Some(s)
    else
      match After(s, steps[..|steps| - 1])
      case None => None
      case Some(t) => if Enabled(t, steps[|steps| - 1]) then Some(Next(t, steps[|steps| - 1])) else None
  }

  lemma OneMore(s: State, done: seq<Step>, t: State, step: Step)
    requires After(s, done) == Some(t) && Enabled(t, step)
    ensures After(s, done + [step]) == Some(Next(t, step))
  {
    assert (done + [step])[..|done|] == done;
  }

  /** The worker the create goes on to register is in the index, and its topic has gone. */
  ghost predicate Stranded(t: State, topic: string, n: string) {
    topic !in t.t.topics && n in t.t.index && t.t.index[n] == topic
  }

  lemma RegisterLate(s0: State, done: seq<Step>, s: State, c: nat) returns (steps: seq<Step>, t: State)
    requires After(s0, done) == Some(s) && Past(s) && c in s.creates && s.creates[c].Starting?
    requires s.creates[c].topic !in s.t.topics
    ensures done <= steps && After(s0, steps) == Some(t) && Past(t) && Stranded(t, s.creates[c].topic, s.creates[c].name)
    ensures t.creates == s.creates - {c} && t.used == s.used && t.t.enabled == s.t.enabled
  {
    OneMore(s0, done, s, Finish(c));
    StepKeepsPast(s, Finish(c));
    steps, t := done + [Finish(c)], Next(s, Finish(c));
  }

  lemma StartLate(s0: State, done: seq<Step>, s: State, c: nat) returns (steps: seq<Step>, t: State)
    requires After(s0, done) == Some(s) && Past(s) && c in s.creates && s.creates[c].Boxing?
    requires s.creates[c].topic !in s.t.topics
    ensures done <= steps && After(s0, steps) == Some(t) && Past(t) && Stranded(t, s.creates[c].topic, s.creates[c].name)
    ensures t.creates == s.creates - {c} && t.used == s.used && s.creates[c].topic in t.t.enabled
  {
    OneMore(s0, done, s, Start(c));
    StepKeepsPast(s, Start(c));
    var s1 := Next(s, Start(c));
    steps, t := RegisterLate(s0, done + [Start(c)], s1, c);
    assert s1.creates - {c} == s.creates - {c};
  }

  /** A create in any phase goes on to its end although its topic has gone. */
  lemma FinishLate(s0: State, done: seq<Step>, s: State, c: nat, name: string)
    returns (steps: seq<Step>, t: State, n: string)
    requires After(s0, done) == Some(s) && Past(s) && c in s.creates && name !in s.used
    requires s.creates[c].topic !in s.t.topics
    ensures done <= steps && After(s0, steps) == Some(t) && Past(t) && Stranded(t, s.creates[c].topic, n)
    ensures t.creates == s.creates - {c} && t.used <= s.used + {name}
    ensures !s.creates[c].Starting? ==> s.creates[c].topic in t.t.enabled
  {
    match s.creates[c]
    case Starting(_, _, boxed) =>
      n := boxed;
      steps, t := RegisterLate(s0, done, s, c);
    case Boxing(_, _, boxed) =>
      n := boxed;
      steps, t := StartLate(s0, done, s, c);
    case Looked(_, _) =>
      n := name;
      OneMore(s0, done, s, PutInbox(c, name));
      StepKeepsPast(s, PutInbox(c, name));
      var s1 := Next(s, PutInbox(c, name));
      steps, t := StartLate(s0, done + [PutInbox(c, name)], s1, c);
      assert s1.creates - {c} == s.creates - {c};
  }

  /**
   A topic deleted under a create, in whatever phase, can be left out of order: the
   create, merely by going on, indexes a worker that is on no list. (Registered again
   before the create ends, the topic lists the worker after all.)
   */
  lemma OvertakenCreateStrandsItsWorker(s: State, c: nat, name: string) returns (steps: seq<Step>, t: State, n: string)
    requires Past(s) && c in s.creates && name !in s.used
    ensures [RemoveTopic(s.creates[c].topic)] <= steps && After(s, steps) == Some(t) && c !in t.creates
    ensures n in t.t.index && t.t.index[n] == s.creates[c].topic && n !in NamesOf(t.t.topics, s.creates[c].topic)
    ensures !Consistent(t.t)
  {
    var topic := s.creates[c].topic;
    OneMore(s, [], s, RemoveTopic(topic));
    assert [] + [RemoveTopic(topic)] == [RemoveTopic(topic)];
    StepKeepsPast(s, RemoveTopic(topic));
    steps, t, n := FinishLate(s, [RemoveTopic(topic)], Next(s, RemoveTopic(topic)), c, name);
    assert n in t.t.index && t.t.index[n] == topic && n !in NamesOf(t.t.topics, topic);
  }

  /** A create on a registered topic from beginning to end. */
  lemma CreateAll(s0: State, done: seq<Step>, s: State, topic: string, c: nat, name: string) returns (steps: seq<Step>, t: State)
    requires After(s0, done) == Some(s) && topic in s.t.topics && topic in s.t.enabled && c !in s.creates && name !in s.used
    ensures done <= steps && After(s0, steps) == Some(t)
    ensures t.t.topics == s.t.topics[topic := s.t.topics[topic] + [name]]
    ensures t.t.started == s.t.started && t.t.registrations == s.t.registrations
  {
    OneMore(s0, done, s, Look(c, topic));
    var s1 := Next(s, Look(c, topic));
    OneMore(s0, done + [Look(c, topic)], s1, PutInbox(c, name));
    var s2 := Next(s1, PutInbox(c, name));
    OneMore(s0, done + [Look(c, topic)] + [PutInbox(c, name)], s2, Start(c));
    var s3 := Next(s2, Start(c));
    OneMore(s0, done + [Look(c, topic)] + [PutInbox(c, name)] + [Start(c)], s3, Finish(c));
    steps := done + [Look(c, topic)] + [PutInbox(c, name)] + [Start(c)] + [Finish(c)];
    t := Next(s3, Finish(c));
  }

  /**
   Overtaken before it started its dispatcher, a create also leaves the topic switched
   on: registered again, the topic gets a worker and no dispatcher on its new queue.
   */
  lemma ReregisteredTopicIsUnserved(s: State, c: nat, name: string, d: nat, other: string)
    returns (steps: seq<Step>, t: State)
    requires Past(s) && c in s.creates && !s.creates[c].Starting?
    requires name !in s.used && other !in s.used && name != other && d !in s.creates
    ensures [RemoveTopic(s.creates[c].topic)] <= steps && After(s, steps) == Some(t)
    ensures
      var topic := s.creates[c].topic;
      NamesOf(t.t.topics, topic) == [other] && t.t.started[(topic, t.t.registrations[topic])] == 0
  {
    var topic := s.creates[c].topic;
    OneMore(s, [], s, RemoveTopic(topic));
    assert [] + [RemoveTopic(topic)] == [RemoveTopic(topic)];
    StepKeepsPast(s, RemoveTopic(topic));
    var done, s1, n := FinishLate(s, [RemoveTopic(topic)], Next(s, RemoveTopic(topic)), c, name);
    OneMore(s, done, s1, AddTopic(topic));
    var s2 := Next(s1, AddTopic(topic));
    assert s2.t.started[(topic, s2.t.registrations[topic])] == 0;
    steps, t := CreateAll(s, done + [AddTopic(topic)], s2, topic, d, other);
  }

  /** The create starts its dispatcher, on the queue it looked up, although the topic has been switched off since. */
  lemma StartAnother(s0: State, done: seq<Step>, s: State, c: nat, name: string) returns (steps: seq<Step>, t: State)
    requires After(s0, done) == Some(s) && c in s.creates && !s.creates[c].Starting? && name !in s.used
    requires s.creates[c].topic !in s.t.enabled
    ensures done <= steps && After(s0, steps) == Some(t)
    ensures t.t.started == s.t.started + multiset{(s.creates[c].topic, s.creates[c].reg)}
  {
    steps, t := done, s;
    if s.creates[c].Looked? {
      OneMore(s0, steps, t, PutInbox(c, name));
      steps, t := steps + [PutInbox(c, name)], Next(t, PutInbox(c, name));
    }
    OneMore(s0, steps, t, Start(c));
    steps, t := steps + [Start(c)], Next(t, Start(c));
  }

  /**
   Overtaken before it started its dispatcher, a create also starts one more on the
   old registration's queue: a second one if that registration had one already.
   */
  lemma OvertakenCreateStartsAnother(s: State, c: nat, name: string) returns (steps: seq<Step>, t: State)
    requires c in s.creates && !s.creates[c].Starting? && name !in s.used
    ensures [RemoveTopic(s.creates[c].topic)] <= steps && After(s, steps) == Some(t)
    ensures
      var queue := (s.creates[c].topic, s.creates[c].reg);
      t.t.started[queue] == s.t.started[queue] + 1
  {
    var topic := s.creates[c].topic;
    OneMore(s, [], s, RemoveTopic(topic));
    assert [] + [RemoveTopic(topic)] == [RemoveTopic(topic)];
    steps, t := StartAnother(s, [RemoveTopic(topic)], Next(s, RemoveTopic(topic)), c, name);
  }

  const NOTHING: State := State(EMPTY, map[], {}, {})

  lemma OneStepLonger(states: seq<State>, steps: seq<Step>, step: Step)
    requires IsRun(states, steps) && Enabled(states[|steps|], step)
    ensures IsRun(states + [Next(states[|steps|], step)], steps + [step])
  {
    var longer := states + [Next(states[|steps|], step)];
    forall i | 0 <= i < |steps|
      ensures StepAt(longer, steps + [step], i)
    {
      assert StepAt(states, steps, i);
      assert longer[i] == states[i] && longer[i + 1] == states[i + 1];
    }
    assert StepAt(longer, steps + [step], |steps|);
  }

  /** Such creates are reached: one that has looked up a topic which another create has already given its dispatcher. */
  lemma OvertakingIsReachable(topic: string) returns (states: seq<State>, steps: seq<Step>)
    ensures IsRun(states, steps) && Past(states[|steps|])
    ensures
      var s := states[|steps|];
      1 in s.creates && s.creates[1] == Looked(topic, 1) && s.t.started[(topic, 1)] == 1
  {
    var s1 := Next(NOTHING, AddTopic(topic));
    var s2 := Next(s1, Look(0, topic));
    var s3 := Next(s2, PutInbox(0, "a"));
    var s4 := Next(s3, Start(0));
    states, steps := [NOTHING], [];
    OneStepLonger(states, steps, AddTopic(topic));
    OneStepLonger(states + [s1], steps + [AddTopic(topic)], Look(0, topic));
    states, steps := states + [s1] + [s2], steps + [AddTopic(topic)] + [Look(0, topic)];
    OneStepLonger(states, steps, PutInbox(0, "a"));
    OneStepLonger(states + [s3], steps + [PutInbox(0, "a")], Start(0));
    states, steps := states + [s3] + [s4], steps + [PutInbox(0, "a")] + [Start(0)];
    OneStepLonger(states, steps, Look(1, topic));
    states, steps := states + [Next(s4, Look(1, topic))], steps + [Look(1, topic)];
    RunKeepsInv(states, steps, |steps|);
  }
}

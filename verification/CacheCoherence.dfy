/**
 A dispatcher's cached worker list against the live tables. The dispatcher reads
 the generation, the names and the inboxes in three separate steps, while any
 number of create and delete operations edit the tables in steps of their own
 and bump the generation last.
 */
module CacheCoherence {
  import opened RouterTables

  /** The value of `seen` that forces a refresh. */
  const U64_MAX: nat := 0xFFFF_FFFF_FFFF_FFFF

  /** A worker's name with the handle of its inbox. */
  datatype Entry = Entry(name: string, inbox: nat)

  /**
   An operation under way; the comments say which edits are behind it, and `touched`
   whether one of them concerned the dispatcher's topic.
   */
  datatype Phase =
    | CreateInboxed(topic: string, name: string)                     // inbox inserted
    | CreatePushed(touched: bool)                                    // name pushed, dispatch lock held
    | DeleteUnboxed(name: string, touched: bool)                     // inbox removed
    | DeleteRetained(touched: bool)                                  // name removed from all lists, dispatch lock held
    | ClosingTopic(topic: string, names: seq<string>, touched: bool) // inboxes of the names before these removed
    | TopicRemoved(touched: bool)                                    // topic's list removed

  datatype Reader = AtRest | Loaded(generation: nat) | Named(generation: nat, names: seq<string>)

  datatype State = State(
    topic: string,
    dispatch: map<string, seq<string>>,
    inboxes: map<string, nat>,
    generation: nat,
    locked: bool,
    ops: map<nat, Phase>,
    used: set<string>,
    reader: Reader,
    cached: seq<Entry>,
    seen: nat)

  datatype Step =
    | InsertInbox(op: nat, topic: string, name: string, inbox: nat)
    | PushName(op: nat)
    | GiveUpCreate(op: nat)
    | RemoveInbox(op: nat, name: string)
    | RetainNames(op: nat)
    | StartClosing(op: nat, topic: string, names: seq<string>)
    | CloseNext(op: nat)
    | RemoveTopic(op: nat)
    | Bump(op: nat)
    | LoadGeneration
    | ReadNames
    | ReadInboxes
    | Invalidate

  /** The names that have an inbox, each with its handle, in list order. */
  function Resolve(names: seq<string>, inboxes: map<string, nat>): seq<Entry> {
    if names == [] then []
    else (if names[0] in inboxes then [Entry(names[0], inboxes[names[0]])] else []) + Resolve(names[1..], inboxes)
  }

  /** What the cache ought to hold. */
  function LiveEntries(s: State): seq<Entry> {
    Resolve(NamesOf(s.dispatch, s.topic), s.inboxes)
  }

  /** The operation has edited what the dispatcher reads and has yet to bump the generation. */
  predicate Unbumped(p: Phase) {
    !p.CreateInboxed? && p.touched
  }

  predicate Lists(s: State, name: string) {
    name in NamesOf(s.dispatch, s.topic)
  }

  predicate Enabled(s: State, step: Step) {
    match step
    case InsertInbox(op, _, name, _) => op !in s.ops && name !in s.used
    case PushName(op) => op in s.ops && s.ops[op].CreateInboxed? && !s.locked
    case GiveUpCreate(op) => op in s.ops && s.ops[op].CreateInboxed?
    case RemoveInbox(op, _) => op !in s.ops
    case RetainNames(op) => op in s.ops && s.ops[op].DeleteUnboxed? && !s.locked
    case StartClosing(op, _, _) => op !in s.ops
    case CloseNext(op) => op in s.ops && s.ops[op].ClosingTopic? && s.ops[op].names != []
    case RemoveTopic(op) => op in s.ops && s.ops[op].ClosingTopic? && s.ops[op].names == [] && !s.locked
    case Bump(op) =>
      && op in s.ops && (s.ops[op].CreatePushed? || s.ops[op].DeleteRetained? || s.ops[op].TopicRemoved?)
      && s.generation + 1 < U64_MAX
    case LoadGeneration => s.reader.AtRest?
    case ReadNames => s.reader.Loaded? && !s.locked
    case ReadInboxes => s.reader.Named?
    case Invalidate => s.reader.AtRest?
  }

  function Next(s: State, step: Step): State
    requires Enabled(s, step)
  {
    match step
    case InsertInbox(op, t, name, inbox) =>
      s.(inboxes := s.inboxes[name := inbox], used := s.used + {name}, ops := s.ops[op := CreateInboxed(t, name)])
    case PushName(op) =>
      var c := s.ops[op];
      s.(dispatch := s.dispatch[c.topic := NamesOf(s.dispatch, c.topic) + [c.name]],
         locked := true, ops := s.ops[op := CreatePushed(c.topic == s.topic)])
    case GiveUpCreate(op) => s.(ops := s.ops - {op})
    case RemoveInbox(op, name) =>
      s.(inboxes := s.inboxes - {name}, ops := s.ops[op := DeleteUnboxed(name, Lists(s, name))])
    case RetainNames(op) =>
      var d := s.ops[op];
      s.(dispatch := AllWithout(s.dispatch, d.name), locked := true,
         ops := s.ops[op := DeleteRetained(d.touched || Lists(s, d.name))])
    case StartClosing(op, t, names) => s.(ops := s.ops[op := ClosingTopic(t, names, false)])
    case CloseNext(op) =>
      var c := s.ops[op];
      s.(inboxes := s.inboxes - {c.names[0]},
         ops := s.ops[op := ClosingTopic(c.topic, c.names[1..], c.touched || Lists(s, c.names[0]))])
    case RemoveTopic(op) =>
      var c := s.ops[op];
      s.(dispatch := s.dispatch - {c.topic}, ops := s.ops[op := TopicRemoved(c.touched || c.topic == s.topic)])
    case Bump(op) =>
      s.(generation := s.generation + 1, locked := if s.ops[op].TopicRemoved? then s.locked else false, ops := s.ops - {op})
    case LoadGeneration =>
      if s.generation != s.seen || s.cached == [] then s.(reader := Loaded(s.generation)) else s
    case ReadNames => s.(reader := Named(s.reader.generation, NamesOf(s.dispatch, s.topic)))
    case ReadInboxes =>
      s.(cached := Resolve(s.reader.names, s.inboxes), seen := s.reader.generation, reader := AtRest)
    case Invalidate => s.(seen := U64_MAX)
  }

  predicate Initial(s: State) {
    && s.dispatch == map[] && s.inboxes == map[] && s.generation == 0 && !s.locked && s.ops == map[]
    && s.used == {} && s.reader.AtRest? && s.cached == [] && s.seen == U64_MAX
  }

  // ---- The invariant -------------------------------------------------------

  /** No operation is between an edit that concerns the topic and its bump. */
  ghost predicate Settled(s: State) {
    forall op :: op in s.ops ==> !Unbumped(s.ops[op])
  }

  ghost predicate Coherent(s: State) {
    s.seen == s.generation && Settled(s) ==> s.cached == LiveEntries(s)
  }

  ghost predicate Inv(s: State) {
    && s.generation < U64_MAX
    && (s.seen == U64_MAX || s.seen <= s.generation)
    && (!s.reader.AtRest? ==> s.reader.generation <= s.generation)
    && Coherent(s)
    && (s.reader.Named? && s.reader.generation == s.generation && Settled(s) ==>
          s.reader.names == NamesOf(s.dispatch, s.topic))
    && (forall t, n :: n in NamesOf(s.dispatch, t) ==> n in s.used)
    && (forall op :: op in s.ops && s.ops[op].CreateInboxed? ==> s.ops[op].name in s.used)
  }

  lemma {:induction false} ResolveIgnoresOthers(names: seq<string>, inboxes: map<string, nat>, name: string, inbox: nat)
    requires name !in names
    ensures Resolve(names, inboxes[name := inbox]) == Resolve(names, inboxes)
  {
    if names != [] {
      ResolveIgnoresOthers(names[1..], inboxes, name, inbox);
    }
  }

  lemma {:induction false} ResolveIgnoresClosed(names: seq<string>, inboxes: map<string, nat>, name: string)
    requires name !in names
    ensures Resolve(names, inboxes - {name}) == Resolve(names, inboxes)
  {
    if names != [] {
      ResolveIgnoresClosed(names[1..], inboxes, name);
    }
  }

  lemma {:induction false} WithoutAbsent(names: seq<string>, name: string)
    requires name !in names
    ensures Without(names, name) == names
  {
    if names != [] {
      WithoutAbsent(names[1..], name);
    }
  }

  /** An edit that leaves its operation untouched leaves the dispatcher's reading of the tables as it was. */
  lemma UntouchedEdit(s: State, step: Step)
    requires Inv(s) && Enabled(s, step) && !step.Bump? && Settled(Next(s, step))
    ensures LiveEntries(Next(s, step)) == LiveEntries(s)
    ensures NamesOf(Next(s, step).dispatch, s.topic) == NamesOf(s.dispatch, s.topic)
  {
    var names := NamesOf(s.dispatch, s.topic);
    match step {
      case InsertInbox(op, _, name, inbox) => ResolveIgnoresOthers(names, s.inboxes, name, inbox);
      case RemoveInbox(op, name) =>
        assert !Unbumped(Next(s, step).ops[op]);
        ResolveIgnoresClosed(names, s.inboxes, name);
      case CloseNext(op) =>
        assert !Unbumped(Next(s, step).ops[op]);
        ResolveIgnoresClosed(names, s.inboxes, s.ops[op].names[0]);
      case RetainNames(op) =>
        assert !Unbumped(Next(s, step).ops[op]);
        AllWithoutNames(s.dispatch, s.ops[op].name, s.topic);
        WithoutAbsent(names, s.ops[op].name);
      case PushName(op) => assert !Unbumped(Next(s, step).ops[op]);
      case RemoveTopic(op) => assert !Unbumped(Next(s, step).ops[op]);
      case _ =>
    }
  }

  /** Edits never settle what was unsettled; only a bump does. */
  lemma OnlyABumpSettles(s: State, step: Step)
    requires Enabled(s, step) && !step.Bump? && Settled(Next(s, step))
    ensures Settled(s)
  {
    var s' := Next(s, step);
    forall op | op in s.ops
      ensures !Unbumped(s.ops[op])
    {
      if op in s'.ops {
        assert !Unbumped(s'.ops[op]);
      }
    }
  }

  /** A step puts no name on a list but the one a create pushes. */
  lemma ListsGainOnlyThePushed(s: State, step: Step, t: string, n: string)
    requires Enabled(s, step) && n in NamesOf(Next(s, step).dispatch, t)
    ensures n in NamesOf(s.dispatch, t) || (step.PushName? && n == s.ops[step.op].name)
  {
    if step.RetainNames? {
      AllWithoutNames(s.dispatch, s.ops[step.op].name, t);
    }
  }

  lemma StepKeepsNames(s: State, step: Step)
    requires Inv(s) && Enabled(s, step)
    ensures
      var s' := Next(s, step);
      && (forall t, n :: n in NamesOf(s'.dispatch, t) ==> n in s'.used)
      && (forall op :: op in s'.ops && s'.ops[op].CreateInboxed? ==> s'.ops[op].name in s'.used)
  {
    var s' := Next(s, step);
    forall t, n | n in NamesOf(s'.dispatch, t)
      ensures n in s'.used
    {
      ListsGainOnlyThePushed(s, step, t, n);
    }
  }

  lemma StepKeepsInv(s: State, step: Step)
    requires Inv(s) && Enabled(s, step)
    ensures Inv(Next(s, step))
  {
    StepKeepsNames(s, step);
    if !step.Bump? && Settled(Next(s, step)) {
      UntouchedEdit(s, step);
      OnlyABumpSettles(s, step);
    }
  }

  // ---- Runs ----------------------------------------------------------------

  ghost predicate StepAt(states: seq<State>, steps: seq<Step>, i: int) {
    && 0 <= i < |steps| && i + 1 < |states|
    && Enabled(states[i], steps[i]) && states[i + 1] == Next(states[i], steps[i])
  }

  ghost predicate IsRun(states: seq<State>, steps: seq<Step>) {
    && |states| == |steps| + 1 && Initial(states[0])
    && forall i :: 0 <= i < |steps| ==> StepAt(states, steps, i)
  }

  lemma {:induction false} RunInv(states: seq<State>, steps: seq<Step>, i: nat)
    requires IsRun(states, steps) && i <= |steps|
    ensures Inv(states[i])
  {
    if i > 0 {
      RunInv(states, steps, i - 1);
      assert StepAt(states, steps, i - 1);
      StepKeepsInv(states[i - 1], steps[i - 1]);
    }
  }

  /**
   Whenever the generation the dispatcher has seen is the current one and no
   operation is between an edit that concerns its topic and its bump, the cache is
   exactly the topic's list resolved through the live inboxes.
   */
  lemma CacheIsCoherent(states: seq<State>, steps: seq<Step>, i: nat)
    requires IsRun(states, steps) && i <= |steps|
    requires states[i].seen == states[i].generation && Settled(states[i])
    ensures states[i].cached == LiveEntries(states[i])
  {
    RunInv(states, steps, i);
  }

  /** A message handled with a current cache goes to a live inbox of the topic. */
  lemma {:induction false} ResolvedIsLive(names: seq<string>, inboxes: map<string, nat>, e: Entry)
    ensures e in Resolve(names, inboxes) <==> e.name in names && e.name in inboxes && inboxes[e.name] == e.inbox
  {
    if names != [] {
      ResolvedIsLive(names[1..], inboxes, e);
    }
  }

  function StaleSteps(): seq<Step> {
    [InsertInbox(0, "t", "w", 7), PushName(0), Bump(0), LoadGeneration, ReadNames, ReadInboxes, RemoveInbox(1, "w")]
  }

  function StaleStates(): seq<State> {
    var s0 := State("t", map[], map[], 0, false, map[], {}, AtRest, [], U64_MAX);
    var s1 := s0.(inboxes := map["w" := 7], used := {"w"}, ops := map[0 := CreateInboxed("t", "w")]);
    var s2 := s1.(dispatch := map["t" := ["w"]], locked := true, ops := map[0 := CreatePushed(true)]);
    var s3 := s2.(generation := 1, locked := false, ops := map[]);
    var s4 := s3.(reader := Loaded(1));
    var s5 := s4.(reader := Named(1, ["w"]));
    var s6 := s5.(cached := [Entry("w", 7)], seen := 1, reader := AtRest);
    var s7 := s6.(inboxes := map[], ops := map[1 := DeleteUnboxed("w", true)]);
    [s0, s1, s2, s3, s4, s5, s6, s7]
  }

  lemma StalePush()
    ensures StepAt(StaleStates(), StaleSteps(), 1)
  {
    var states, steps := StaleStates(), StaleSteps();
    assert [] + ["w"] == ["w"];
    assert Next(states[1], steps[1]).dispatch == states[2].dispatch;
    assert Next(states[1], steps[1]).ops == states[2].ops;
  }

  lemma StaleCreate()
    ensures forall i :: 0 <= i < 3 ==> StepAt(StaleStates(), StaleSteps(), i)
  {
    var states, steps := StaleStates(), StaleSteps();
    assert Next(states[0], steps[0]).ops == states[1].ops;
    assert Next(states[0], steps[0]).inboxes == states[1].inboxes;
    assert StepAt(states, steps, 0);
    StalePush();
    assert Next(states[2], steps[2]).ops == states[3].ops;
    assert StepAt(states, steps, 2);
  }

  lemma StaleRefresh()
    ensures forall i :: 3 <= i < 7 ==> StepAt(StaleStates(), StaleSteps(), i)
    ensures Resolve(["w"], map[]) == []
  {
  }

  /**
   The second condition is needed: here is a run that stops between a delete's
   edit and its bump, where a current cache still names the closed inbox.
   */
  lemma StaleBetweenEditAndBump()
    ensures IsRun(StaleStates(), StaleSteps())
    ensures
      var s := StaleStates()[7];
      s.seen == s.generation && !Settled(s) && s.cached == [Entry("w", 7)] && LiveEntries(s) == []
  {
    StaleCreate();
    StaleRefresh();
    assert StaleStates()[7].ops[1] == DeleteUnboxed("w", true);
  }

  // ---- Every edit of what is cached opens that window ---------------------------------

  /** A name is inserted by one create at a time, and is on no list before it is pushed. */
  ghost predicate CreatesFresh(s: State) {
    && (forall op, t :: op in s.ops && s.ops[op].CreateInboxed? ==> s.ops[op].name !in NamesOf(s.dispatch, t))
    && (forall o, p :: o in s.ops && p in s.ops && o != p && s.ops[o].CreateInboxed? && s.ops[p].CreateInboxed? ==>
          s.ops[o].name != s.ops[p].name)
  }

  lemma StepKeepsFresh(s: State, step: Step)
    requires Inv(s) && Enabled(s, step) && CreatesFresh(s)
    ensures CreatesFresh(Next(s, step))
  {
    var s' := Next(s, step);
    forall op, t | op in s'.ops && s'.ops[op].CreateInboxed?
      ensures s'.ops[op].name !in NamesOf(s'.dispatch, t)
    {
      if s'.ops[op].name in NamesOf(s'.dispatch, t) {
        ListsGainOnlyThePushed(s, step, t, s'.ops[op].name);
        assert false;
      }
    }
  }

  lemma {:induction false} RunFresh(states: seq<State>, steps: seq<Step>, i: nat)
    requires IsRun(states, steps) && i <= |steps|
    ensures CreatesFresh(states[i])
  {
    if i > 0 {
      RunFresh(states, steps, i - 1);
      RunInv(states, steps, i - 1);
      assert StepAt(states, steps, i - 1);
      StepKeepsFresh(states[i - 1], steps[i - 1]);
    }
  }

  /** The name is spent: no create will insert or push it again. */
  ghost predicate Spent(s: State, name: string) {
    name in s.used && forall op :: op in s.ops && s.ops[op].CreateInboxed? ==> s.ops[op].name != name
  }

  /** The cache passes for current and holds an entry that has lost its inbox or its place on the list for good. */
  ghost predicate Ghosted(s: State, e: Entry) {
    && s.reader.AtRest? && s.seen == s.generation && e in s.cached && Spent(s, e.name)
    && (e.name !in s.inboxes || !Lists(s, e.name))
  }

  lemma StepKeepsGhost(s: State, step: Step, e: Entry)
    requires Enabled(s, step) && Ghosted(s, e) && !step.Bump? && !step.Invalidate?
    ensures Ghosted(Next(s, step), e)
  {
    if step.RetainNames? {
      AllWithoutNames(s.dispatch, s.ops[step.op].name, s.topic);
    }
  }

  lemma GhostIsIncoherent(s: State, e: Entry)
    requires Ghosted(s, e)
    ensures s.cached != LiveEntries(s)
  {
    ResolvedIsLive(NamesOf(s.dispatch, s.topic), s.inboxes, e);
  }

  ghost predicate NoBump(steps: seq<Step>, i: nat, n: nat)
    requires n <= |steps|
  {
    forall k :: i <= k < n ==> !steps[k].Bump? && !steps[k].Invalidate?
  }

  lemma {:induction false} GhostStays(states: seq<State>, steps: seq<Step>, i: nat, n: nat, e: Entry)
    requires IsRun(states, steps) && i <= n <= |steps| && Ghosted(states[i], e) && NoBump(steps, i, n)
    ensures Ghosted(states[n], e)
    decreases n - i
  {
    if i < n {
      GhostStays(states, steps, i, n - 1, e);
      assert StepAt(states, steps, n - 1);
      StepKeepsGhost(states[n - 1], steps[n - 1], e);
    }
  }

  /** The step closes the worker's inbox, takes its name off the lists, or takes its topic's list away. */
  predicate Removes(s: State, step: Step, name: string)
    requires Enabled(s, step)
  {
    match step
    case RemoveInbox(_, n) => n == name
    case CloseNext(op) => s.ops[op].names[0] == name
    case RetainNames(op) => s.ops[op].name == name
    case RemoveTopic(op) => s.ops[op].topic == s.topic
    case _ => false
  }

  lemma RemovalGhosts(s: State, step: Step, e: Entry)
    requires Inv(s) && CreatesFresh(s) && Enabled(s, step) && Removes(s, step, e.name)
    requires s.reader.AtRest? && s.seen == s.generation && s.cached == LiveEntries(s) && e in s.cached
    ensures Ghosted(Next(s, step), e)
  {
    ResolvedIsLive(NamesOf(s.dispatch, s.topic), s.inboxes, e);
    if step.RetainNames? {
      AllWithoutNames(s.dispatch, e.name, s.topic);
    }
  }

  /**
   The second condition is needed: from any coherent current cache, every edit by which
   a cached worker goes leaves the cache passing for current and naming it, whatever
   else happens, until some operation bumps the generation or a failed delivery
   invalidates the cache.
   */
  lemma RemovalLeavesAGhostUntilTheBump(states: seq<State>, steps: seq<Step>, i: nat, n: nat, e: Entry)
    requires IsRun(states, steps) && i < n <= |steps| && NoBump(steps, i + 1, n)
    requires Enabled(states[i], steps[i]) && Removes(states[i], steps[i], e.name)
    requires states[i].reader.AtRest? && states[i].seen == states[i].generation
    requires states[i].cached == LiveEntries(states[i]) && e in states[i].cached
    ensures states[n].seen == states[n].generation && e in states[n].cached && states[n].cached != LiveEntries(states[n])
  {
    RunInv(states, steps, i);
    RunFresh(states, steps, i);
    assert StepAt(states, steps, i);
    RemovalGhosts(states[i], steps[i], e);
    GhostStays(states, steps, i + 1, n, e);
    GhostIsIncoherent(states[n], e);
  }

  /** The cache passes for current and lacks a listed worker, and the dispatch lock is held. */
  ghost predicate Missed(s: State, name: string) {
    && s.reader.AtRest? && s.seen == s.generation && s.cached != [] && s.locked && Lists(s, name)
    && forall e :: e in s.cached ==> e.name != name
  }

  lemma {:induction false} MissedStays(states: seq<State>, steps: seq<Step>, i: nat, n: nat, name: string)
    requires IsRun(states, steps) && i <= n <= |steps| && Missed(states[i], name) && NoBump(steps, i, n)
    ensures Missed(states[n], name)
    decreases n - i
  {
    if i < n {
      MissedStays(states, steps, i, n - 1, name);
      assert StepAt(states, steps, n - 1);
    }
  }

  /**
   So does a create: pushed onto the topic's list, a worker is missing from a current
   cache until the bump, and the cache is incoherent for as long as its inbox is there.
   */
  lemma PushIsMissedUntilTheBump(states: seq<State>, steps: seq<Step>, i: nat, n: nat, op: nat)
    requires IsRun(states, steps) && i < n <= |steps| && steps[i] == PushName(op) && NoBump(steps, i + 1, n)
    requires Enabled(states[i], steps[i]) && states[i].ops[op].topic == states[i].topic
    requires states[i].reader.AtRest? && states[i].seen == states[i].generation
    requires states[i].cached == LiveEntries(states[i]) && states[i].cached != []
    ensures
      var s, name := states[n], states[i].ops[op].name;
      && s.seen == s.generation && Lists(s, name) && (forall e :: e in s.cached ==> e.name != name)
      && (name in s.inboxes ==> s.cached != LiveEntries(s))
  {
    var name := states[i].ops[op].name;
    RunFresh(states, steps, i);
    assert StepAt(states, steps, i);
    forall e | e in states[i].cached
      ensures e.name != name
    {
      ResolvedIsLive(NamesOf(states[i].dispatch, states[i].topic), states[i].inboxes, e);
    }
    assert Missed(states[i + 1], name);
    MissedStays(states, steps, i + 1, n, name);
    var s := states[n];
    if name in s.inboxes {
      ResolvedIsLive(NamesOf(s.dispatch, s.topic), s.inboxes, Entry(name, s.inboxes[name]));
    }
  }

  // ---- Edits reach the cache ------------------------------------------------------------

  lemma {:induction false} ResolveAppend(names: seq<string>, last: string, inboxes: map<string, nat>)
    ensures Resolve(names + [last], inboxes) ==
              Resolve(names, inboxes) + (if last in inboxes then [Entry(last, inboxes[last])] else [])
  {
    if names == [] {
      assert names + [last] == [last];
      assert Resolve([last][1..], inboxes) == [];
    } else {
      var more := names + [last];
      assert more[0] == names[0] && more[1..] == names[1..] + [last];
      ResolveAppend(names[1..], last, inboxes);
    }
  }

  /** The steps of deleting a topic: it is remembered, its workers' inboxes are closed in turn, its list is removed. */
  lemma ClosingGoesOn(s: State, step: Step, t: string)
    requires Enabled(s, step) && (step.StartClosing? || step.CloseNext? || step.RemoveTopic?)
    ensures
      var s' := Next(s, step);
      match step
      case StartClosing(op, topic, names) =>
        && op in s'.ops && s'.ops[op].ClosingTopic? && s'.ops[op].topic == topic && s'.ops[op].names == names
        && s'.(ops := s.ops) == s
      case CloseNext(op) =>
        && s.ops[op].names[0] !in s'.inboxes && s'.dispatch == s.dispatch
        && s'.ops[op].ClosingTopic? && s'.ops[op].topic == s.ops[op].topic && s'.ops[op].names == s.ops[op].names[1..]
      case RemoveTopic(op) =>
        && s.ops[op].topic !in s'.dispatch && (t != s.ops[op].topic ==> NamesOf(s'.dispatch, t) == NamesOf(s.dispatch, t))
        && s'.ops[op].TopicRemoved? && s'.inboxes == s.inboxes
      case _ => true
  {
  }

  /** A create whose topic has gone ends with its inbox left over, and nothing else. */
  lemma GivenUpCreateLeavesItsInbox(s: State, op: nat)
    requires Enabled(s, GiveUpCreate(op))
    ensures op !in Next(s, GiveUpCreate(op)).ops && Next(s, GiveUpCreate(op)).(ops := s.ops) == s
  {
  }

  /** A bump and a failed delivery both leave a cache that no longer passes for current. */
  lemma StaleAfterABumpOrAFailure(s: State, step: Step)
    requires Inv(s) && Enabled(s, step) && (step.Bump? || step.Invalidate?)
    ensures Next(s, step).seen != Next(s, step).generation
  {
  }

  /** Three reads of the dispatcher in a row. */
  ghost predicate Refreshes(s: State, s': State) {
    && Enabled(s, LoadGeneration) && var s1 := Next(s, LoadGeneration);
    && Enabled(s1, ReadNames) && var s2 := Next(s1, ReadNames);
    && Enabled(s2, ReadInboxes) && s' == Next(s2, ReadInboxes)
  }

  /**
   With nothing in between, a cache that does not pass for current, or is empty, is
   brought up to date; one that does is left as it is.
   */
  lemma RefreshBringsTheCacheUpToDate(s: State) returns (s': State)
    requires s.reader.AtRest? && !s.locked
    ensures s.seen != s.generation || s.cached == [] ==>
              Refreshes(s, s') && s'.cached == LiveEntries(s) && s'.seen == s.generation && LiveEntries(s') == LiveEntries(s)
    ensures s.seen == s.generation && s.cached != [] ==> Enabled(s, LoadGeneration) && Next(s, LoadGeneration) == s
  {
    s' := s;
    if s.seen != s.generation || s.cached == [] {
      s' := Next(Next(Next(s, LoadGeneration), ReadNames), ReadInboxes);
    }
  }

  /** Three edits of an operation in a row. */
  ghost predicate Does(s: State, a: Step, b: Step, c: Step, s': State) {
    && Enabled(s, a) && Enabled(Next(s, a), b) && Enabled(Next(Next(s, a), b), c)
    && s' == Next(Next(Next(s, a), b), c)
  }

  /** A create that is through has its worker last among the live ones of its topic, and the generation one further. */
  lemma CreatedWorkerIsLive(s: State, op: nat, topic: string, name: string, inbox: nat) returns (s': State)
    requires Inv(s) && op !in s.ops && name !in s.used && !s.locked && s.generation + 1 < U64_MAX
    ensures Does(s, InsertInbox(op, topic, name, inbox), PushName(op), Bump(op), s')
    ensures !s'.locked && s'.ops == s.ops && s'.generation == s.generation + 1
    ensures LiveEntries(s') == LiveEntries(s) + if topic == s.topic then [Entry(name, inbox)] else []
  {
    var s1 := Next(s, InsertInbox(op, topic, name, inbox));
    var s2 := Next(s1, PushName(op));
    s' := Next(s2, Bump(op));
    var names := NamesOf(s.dispatch, s.topic);
    assert name !in names;
    ResolveIgnoresOthers(names, s.inboxes, name, inbox);
    ResolveAppend(names, name, s1.inboxes);
  }

  /** A delete that is through has no entry for its worker among the live ones, and keeps the others. */
  lemma DeletedWorkerIsNotLive(s: State, op: nat, name: string, e: Entry) returns (s': State)
    requires op !in s.ops && !s.locked && s.generation + 1 < U64_MAX
    ensures Does(s, RemoveInbox(op, name), RetainNames(op), Bump(op), s')
    ensures !s'.locked && s'.ops == s.ops && s'.generation == s.generation + 1
    ensures e in LiveEntries(s') <==> e in LiveEntries(s) && e.name != name
  {
    s' := Next(Next(Next(s, RemoveInbox(op, name)), RetainNames(op)), Bump(op));
    AllWithoutNames(s.dispatch, name, s.topic);
    ResolvedIsLive(NamesOf(s.dispatch, s.topic), s.inboxes, e);
    ResolvedIsLive(NamesOf(s'.dispatch, s.topic), s'.inboxes, e);
  }
}

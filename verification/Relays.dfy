/**
 A targeted message that nobody answers to, passed on by dispatchers, receive loops
 and workers in any order: the three places share one counter.
 */
module Relays {
  import opened Messages
  import opened Dispatch
  import Recv
  import WorkerProcess

  /** Whoever has the message in hand, with what it sees at that moment. */
  datatype Site =
    | AtDispatcher(node: Option<string>, names: seq<string>, cursor: nat)
    | AtRouter(node: Option<string>, env: Recv.Env)
    | AtWorker(name: string)

  datatype Outcome = Relayed(copy: EMessage) | Dropped | Kept

  /** What the site does with the message; `Kept` is anything but a relay or a drop. */
  function Passed(site: Site, m: EMessage): Outcome {
    match site
    case AtDispatcher(node, names, cursor) =>
      (match Decide(node, names, cursor, m)
       case Relay(copy) => Relayed(copy)
       case Drop => Dropped
       case _ => Kept)
    case AtRouter(node, env) =>
      (match Recv.FateOf(node, env, m)
       case Sent(ToTopic(copy)) => Relayed(copy)
       case Dropped => Dropped
       case _ => Kept)
    case AtWorker(name) =>
      if !WorkerProcess.IsMisrouted(name, m) then Kept
      else match Hop(m)
        case Some(copy) => Relayed(copy)
        case None => Dropped
  }

  /** The site is in a position to pass the message on, and none of its workers answers to the target. */
  ghost predicate Absent(site: Site, topic: string, target: string) {
    match site
    case AtDispatcher(node, names, _) => names != [] && forall i :: 0 <= i < |names| ==> !Answers(node, names[i], target)
    case AtRouter(node, env) =>
      topic in env.topics && env.stillThere && env.accepts && Recv.Lookup(node, env.index, target).None?
    case AtWorker(name) => name != target
  }

  /** How often the message is relayed as it meets the sites in turn, and whether it ends in a drop. */
  ghost function Hops(sites: nat -> Site, step: nat, m: EMessage): (nat, bool)
    decreases Max(MAX_TARGETED_HOPS - m.attempts, 0)
  {
    match Passed(sites(step), m)
    case Relayed(copy) =>
      if m.attempts < copy.attempts <= MAX_TARGETED_HOPS then
        var (n, dropped) := Hops(sites, step + 1, copy);
        (n + 1, dropped)
      else (0, false)
    case Dropped => (0, true)
    case Kept => (0, false)
  }

  /** Every site that passes a message on takes exactly one hop of the counter, and only the cap drops it. */
  lemma EverySiteHops(site: Site, m: EMessage)
    ensures match Passed(site, m)
            case Relayed(copy) => m.toWorker.Some? && Hop(m) == Some(copy)
            case Dropped => m.toWorker.Some? && Hop(m) == None
            case Kept => true
  {
  }

  lemma AbsentIsPassedOn(site: Site, m: EMessage)
    requires m.toWorker.Some? && Absent(site, m.topic, m.toWorker.value)
    ensures Passed(site, m) == match Hop(m) case Some(copy) => Relayed(copy) case None => Dropped
  {
    if site.AtDispatcher? {
      var d := Decide(site.node, site.names, site.cursor, m);
      assert !d.Deliver?;
    }
  }

  /** Aimed at nobody, a message is relayed exactly as often as the cap allows and then dropped, whoever has it in turn. */
  lemma {:induction false} AbsentTargetIsDroppedAtTheCap(sites: nat -> Site, step: nat, m: EMessage)
    requires m.toWorker.Some?
    requires forall k: nat :: Absent(sites(k), m.topic, m.toWorker.value)
    ensures Hops(sites, step, m) == (Max(MAX_TARGETED_HOPS - m.attempts, 0), true)
    decreases Max(MAX_TARGETED_HOPS - m.attempts, 0)
  {
    assert Absent(sites(step), m.topic, m.toWorker.value);
    AbsentIsPassedOn(sites(step), m);
    if Hop(m).Some? {
      AbsentTargetIsDroppedAtTheCap(sites, step + 1, Hop(m).value);
    }
  }

  /** Whatever the sites are, no mix of them relays a message more often than the cap allows. */
  lemma {:induction false} RelaysNeverPassTheCap(sites: nat -> Site, step: nat, m: EMessage)
    ensures Hops(sites, step, m).0 <= Max(MAX_TARGETED_HOPS - m.attempts, 0)
    ensures Hops(sites, step, m).1 ==> Hops(sites, step, m).0 == Max(MAX_TARGETED_HOPS - m.attempts, 0)
    decreases Max(MAX_TARGETED_HOPS - m.attempts, 0)
  {
    EverySiteHops(sites(step), m);
    if Passed(sites(step), m).Relayed? {
      RelaysNeverPassTheCap(sites, step + 1, Passed(sites(step), m).copy);
    }
  }
}

/**
 What a topic dispatcher decides about one claimed message: the target match
 against its cached worker names, the relay cap, and the round-robin rotation.
 */
module Dispatch {
  import opened Messages

  /** Width of the dispatcher's `usize` cursor, which is advanced with a wrapping add. */
  const USIZE: nat := 0x1_0000_0000_0000_0000

  datatype Decision =
    | NoWorkers
    | Deliver(index: nat, cursor: nat)
    | Relay(copy: EMessage)
    | Drop

  /** The first cached name that answers to `target`. */
  function FirstAnswer(node: Option<string>, names: seq<string>, target: string): (r: Option<nat>)
    ensures r.Some? ==> r.value < |names| && Answers(node, names[r.value], target)
    ensures r.Some? ==> forall i :: 0 <= i < r.value ==> !Answers(node, names[i], target)
    ensures r.None? ==> forall i :: 0 <= i < |names| ==> !Answers(node, names[i], target)
  {
    if names == [] then None
    else if Answers(node, names[0], target) then Some(0)
    else match FirstAnswer(node, names[1..], target)
      case None => None
      case Some(i) => Some(i + 1)
  }

  /** The relay rule shared by the dispatcher, `recv` and `route_targeted`: bump or give up. */
  function Hop(m: EMessage): (r: Option<EMessage>)
    ensures r.Some? <==> m.attempts < MAX_TARGETED_HOPS
    ensures r.Some? ==> r.value.attempts <= MAX_TARGETED_HOPS && r.value == m.(attempts := m.attempts + 1)
  {
    if m.attempts >= MAX_TARGETED_HOPS then None else Some(m.(attempts := m.attempts + 1))
  }

  function Decide(node: Option<string>, names: seq<string>, cursor: nat, m: EMessage): (d: Decision)
    ensures d.NoWorkers? <==> names == []
    ensures d.Deliver? ==> d.index < |names|
    ensures d.Deliver? && m.toWorker.Some? ==> Answers(node, names[d.index], m.toWorker.value) && d.cursor == cursor
    ensures (d.Relay? || d.Drop?) ==>
              m.toWorker.Some? && forall i :: 0 <= i < |names| ==> !Answers(node, names[i], m.toWorker.value)
    ensures d.Relay? ==> Hop(m) == Some(d.copy)
    ensures d.Drop? ==> m.attempts >= MAX_TARGETED_HOPS
  {
    if names == [] then NoWorkers
    else match m.toWorker
      case None => Deliver(cursor % |names|, (cursor + 1) % USIZE)
      case Some(target) =>
        match FirstAnswer(node, names, target)
        case Some(i) => Deliver(i, cursor)
        case None => if Hop(m).Some? then Relay(Hop(m).value) else Drop
  }

  /** The copy that goes into an inbox carries that worker's name. */
  function Stamp(m: EMessage, name: string): EMessage {
    m.(toWorker := Some(name))
  }

  /**
   A message aimed at a worker this node runs reaches that worker's inbox and no
   other one, provided names are unambiguous.
   */
  lemma LocalTargetGetsOwnInbox(node: Option<string>, names: seq<string>, cursor: nat, m: EMessage, nodes: set<string>)
    requires m.toWorker.Some? && m.toWorker.value in names
    requires Unambiguous((set n | n in names), nodes)
    requires node.Some? ==> node.value in nodes
    ensures Decide(node, names, cursor, m).Deliver?
    ensures names[Decide(node, names, cursor, m).index] == m.toWorker.value
  {
    var d := Decide(node, names, cursor, m);
    var i :| 0 <= i < |names| && names[i] == m.toWorker.value;
    assert Answers(node, names[i], m.toWorker.value);
    var all := set n | n in names;
    assert names[d.index] in all && m.toWorker.value in all;
  }

  /** The message after `k` hops in a row, wherever they are taken, or None once it has been given up. */
  function Hopped(m: EMessage, k: nat): Option<EMessage> {
    if k == 0 then Some(m)
    else match Hopped(m, k - 1)
      case None => None
      case Some(live) => Hop(live)
  }

  /** Only the attempt count tells one hop from the next, and the hops end exactly at the cap. */
  lemma {:induction false} HopsEndAtTheCap(m: EMessage, k: nat)
    ensures Hopped(m, k) ==
            if k == 0 || m.attempts + k <= MAX_TARGETED_HOPS then Some(m.(attempts := m.attempts + k)) else None
  {
    if k > 0 {
      HopsEndAtTheCap(m, k - 1);
    }
  }

  // ---- Round robin ---------------------------------------------------------

  /** What can happen to the cursor while the worker list stays the same. */
  datatype Turn = Untargeted | Targeted | Refresh

  datatype Rotation = Rotation(cursor: nat, picks: seq<nat>)

  /** One dispatcher pass: untargeted messages are decided by `Decide`, a refresh reduces the cursor. */
  function Turned(r: Rotation, names: seq<string>, turn: Turn, m: EMessage): (r': Rotation)
    requires names != [] && |r.picks| == |names|
    ensures |r'.picks| == |names|
  {
    match turn
    case Refresh => r.(cursor := r.cursor % |names|)
    case Targeted => r
    case Untargeted =>
      var d := Decide(None, names, r.cursor, m.(toWorker := None));
      Rotation(d.cursor, r.picks[d.index := r.picks[d.index] + 1])
  }

  function Spin(start: nat, names: seq<string>, turns: seq<Turn>, m: EMessage): (r: Rotation)
    requires names != []
    ensures |r.picks| == |names|
  {
    if turns == [] then Rotation(start, seq(|names|, i => 0))
    else Turned(Spin(start, names, turns[..|turns| - 1], m), names, turns[|turns| - 1], m)
  }

  /** How far worker `j` sits behind worker `origin` in rotation order. */
  function Offset(origin: nat, j: nat, n: nat): nat
    requires origin < n && j < n
  {
    if j >= origin then j - origin else j - origin + n
  }

  /** After whole rounds plus `r` more picks, exactly the `r` workers after the origin are one ahead. */
  ghost predicate Level(rot: Rotation, origin: nat, n: nat, rounds: nat, r: nat)
    requires origin < n && |rot.picks| == n
  {
    && r < n
    && rot.cursor % n == (if origin + r < n then origin + r else origin + r - n)
    && forall j :: 0 <= j < n ==> rot.picks[j] == rounds + (if Offset(origin, j, n) < r then 1 else 0)
  }

  lemma ModUnique(x: nat, q: nat, n: nat, r: nat)
    requires r < n && x == q * n + r
    ensures x % n == r
  {
    var d := q - x / n;
    assert d * n == x % n - r by {
      assert x == (x / n) * n + x % n;
      assert d * n == q * n - (x / n) * n;
    }
  }

  lemma ModSuccessor(c: nat, n: nat)
    requires n > 0
    ensures (c + 1) % n == if c % n + 1 == n then 0 else c % n + 1
    ensures c % n % n == c % n
  {
    var q := c / n;
    assert c == q * n + c % n;
    if c % n + 1 == n {
      assert (q + 1) * n == q * n + n;
      ModUnique(c + 1, q + 1, n, 0);
    } else {
      ModUnique(c + 1, q, n, c % n + 1);
    }
    ModUnique(c % n, 0, n, c % n);
  }

  /** The next advance of the cursor stays below its range, or the wrap falls on the end of a round. */
  predicate Smooth(cursor: nat, n: nat)
    requires n > 0
  {
    cursor + 1 < USIZE || (cursor < USIZE && USIZE % n == 0)
  }

  /** Advancing the cursor moves one place on, the wrap included where it is smooth. */
  lemma Advance(cursor: nat, n: nat)
    requires n > 0 && Smooth(cursor, n)
    ensures (cursor + 1) % USIZE % n == if cursor % n + 1 == n then 0 else cursor % n + 1
    ensures (cursor + 1) % USIZE < USIZE && (cursor + 1) % USIZE <= cursor + 1
  {
    ModSuccessor(cursor, n);
    if cursor + 1 == USIZE {
      assert 0 % n == 0;
    } else {
      assert (cursor + 1) % USIZE == cursor + 1;
    }
  }

  lemma PickKeepsLevel(rot: Rotation, names: seq<string>, m: EMessage, origin: nat, rounds: nat, r: nat)
    returns (rounds': nat, r': nat)
    requires origin < |names| && |rot.picks| == |names| && Smooth(rot.cursor, |names|)
    requires Level(rot, origin, |names|, rounds, r)
    ensures Turned(rot, names, Untargeted, m).cursor == (rot.cursor + 1) % USIZE
    ensures Level(Turned(rot, names, Untargeted, m), origin, |names|, rounds', r')
  {
    var n := |names|;
    Advance(rot.cursor, n);
    var next := rot.cursor % n;
    var rot' := Turned(rot, names, Untargeted, m);
    assert Offset(origin, next, n) == r;
    assert rot'.picks == rot.picks[next := rot.picks[next] + 1];
    if r + 1 == n {
      rounds', r' := rounds + 1, 0;
    } else {
      rounds', r' := rounds, r + 1;
    }
    forall j | 0 <= j < n
      ensures rot'.picks[j] == rounds' + (if Offset(origin, j, n) < r' then 1 else 0)
    {
      assert Offset(origin, j, n) == r ==> j == next;
    }
  }

  lemma RefreshKeepsLevel(rot: Rotation, origin: nat, n: nat, rounds: nat, r: nat)
    requires origin < n && |rot.picks| == n && Level(rot, origin, n, rounds, r)
    ensures rot.cursor % n <= rot.cursor
    ensures Level(rot.(cursor := rot.cursor % n), origin, n, rounds, r)
  {
    ModSuccessor(rot.cursor, n);
  }

  lemma TurnKeepsLevel(rot: Rotation, names: seq<string>, turn: Turn, m: EMessage, origin: nat, rounds: nat, r: nat)
    returns (rounds': nat, r': nat)
    requires origin < |names| && |rot.picks| == |names| && Smooth(rot.cursor, |names|)
    requires Level(rot, origin, |names|, rounds, r)
    ensures Turned(rot, names, turn, m).cursor <= rot.cursor + 1 && Turned(rot, names, turn, m).cursor < USIZE
    ensures turn.Untargeted? ==> Turned(rot, names, turn, m).cursor == (rot.cursor + 1) % USIZE
    ensures Level(Turned(rot, names, turn, m), origin, |names|, rounds', r')
  {
    rounds', r' := rounds, r;
    match turn {
      case Refresh => RefreshKeepsLevel(rot, origin, |names|, rounds, r);
      case Targeted =>
      case Untargeted =>
        Advance(rot.cursor, |names|);
        rounds', r' := PickKeepsLevel(rot, names, m, origin, rounds, r);
    }
  }

  lemma NoWrap(cursor: nat)
    requires cursor < USIZE
    ensures cursor % USIZE == cursor
  {
  }

  ghost predicate AllUntargeted(turns: seq<Turn>) {
    forall i :: 0 <= i < |turns| ==> turns[i].Untargeted?
  }

  lemma SpinStartsLevel(start: nat, origin: nat, names: seq<string>, m: EMessage)
    requires origin < |names| && start % |names| == origin
    ensures Spin(start, names, [], m).cursor == start && Level(Spin(start, names, [], m), origin, |names|, 0, 0)
  {
  }

  lemma {:induction false} SpinStaysLevel(start: nat, origin: nat, names: seq<string>, turns: seq<Turn>, m: EMessage)
    returns (rounds: nat, r: nat)
    requires origin < |names| && start % |names| == origin && start < USIZE
    requires start + |turns| < USIZE || USIZE % |names| == 0
    ensures Spin(start, names, turns, m).cursor <= start + |turns| && Spin(start, names, turns, m).cursor < USIZE
    ensures AllUntargeted(turns) && start + |turns| < USIZE ==> Spin(start, names, turns, m).cursor == start + |turns|
    ensures Level(Spin(start, names, turns, m), origin, |names|, rounds, r)
  {
    if turns == [] {
      rounds, r := 0, 0;
      SpinStartsLevel(start, origin, names, m);
    } else {
      var shorter := turns[..|turns| - 1];
      rounds, r := SpinStaysLevel(start, origin, names, shorter, m);
      var rot := Spin(start, names, shorter, m);
      rounds, r := TurnKeepsLevel(rot, names, turns[|turns| - 1], m, origin, rounds, r);
      assert Spin(start, names, turns, m) == Turned(rot, names, turns[|turns| - 1], m);
      if AllUntargeted(turns) && start + |turns| < USIZE {
        assert AllUntargeted(shorter) && turns[|turns| - 1].Untargeted?;
        NoWrap(rot.cursor + 1);
      }
    }
  }

  /**
   Over any run with an unchanged worker list, two workers are picked for
   untargeted messages equally often, give or take one, as long as the cursor does
   not wrap; and across any number of wraps if the length divides the cursor's range.
   */
  lemma RoundRobinIsFair(start: nat, names: seq<string>, turns: seq<Turn>, m: EMessage, a: nat, b: nat)
    requires a < |names| && b < |names| && start < USIZE
    requires start + |turns| < USIZE || USIZE % |names| == 0
    ensures Spin(start, names, turns, m).picks[a] <= Spin(start, names, turns, m).picks[b] + 1
  {
    var rounds, r := SpinStaysLevel(start, start % |names|, names, turns, m);
  }

  /** Untargeted messages only. */
  function Plain(k: nat): seq<Turn> {
    seq(k, i => Untargeted)
  }

  lemma PlainStep(names: seq<string>, k: nat, m: EMessage)
    requires names != []
    ensures Spin(0, names, Plain(k + 1), m) == Turned(Spin(0, names, Plain(k), m), names, Untargeted, m)
  {
    assert Plain(k + 1)[..k] == Plain(k);
  }

  lemma TurnAt(rot: Rotation, names: seq<string>, m: EMessage, place: nat)
    requires place < |names| && |rot.picks| == |names| && rot.cursor % |names| == place
    ensures Turned(rot, names, Untargeted, m) == Rotation((rot.cursor + 1) % USIZE, rot.picks[place := rot.picks[place] + 1])
  {
  }

  /** Two turns across the wrap, the first of them at place `r` before the end of a round, the second at place 0. */
  lemma TurnsAcrossTheWrap(rot: Rotation, names: seq<string>, m: EMessage, rounds: nat, r: nat)
    requires r + 1 < |names| == |rot.picks| && rot.cursor == USIZE - 1 && rot.cursor % |names| == r
    requires forall j :: 0 <= j < |rot.picks| ==> rot.picks[j] == rounds + (if j < r then 1 else 0)
    ensures
      var picks := Turned(Turned(rot, names, Untargeted, m), names, Untargeted, m).picks;
      picks[0] == picks[|names| - 1] + 2
  {
    TurnAt(rot, names, m, r);
    var between := Rotation(0, rot.picks[r := rot.picks[r] + 1]);
    TurnAt(between, names, m, 0);
  }

  lemma LastPlaceBeforeTheWrap(n: nat)
    requires n > 0 && USIZE % n != 0
    ensures (USIZE - 1) % n + 1 < n
  {
    ModSuccessor(USIZE - 1, n);
  }

  /** For every other length the first wrap gives worker 0 a pick too many: it is two ahead of the last worker. */
  lemma WrapBreaksTheRotation(names: seq<string>, m: EMessage)
    requires names != [] && USIZE % |names| != 0
    ensures
      var picks := Spin(0, names, Plain(USIZE + 1), m).picks;
      picks[0] == picks[|names| - 1] + 2
  {
    var rot := Spin(0, names, Plain(USIZE - 1), m);
    var rounds, r := SpinStaysLevel(0, 0, names, Plain(USIZE - 1), m);
    LastPlaceBeforeTheWrap(|names|);
    forall j | 0 <= j < |rot.picks|
      ensures rot.picks[j] == rounds + (if j < r then 1 else 0)
    {
      assert Offset(0, j, |names|) == j;
    }
    TurnsAcrossTheWrap(rot, names, m, rounds, r);
    PlainStep(names, USIZE - 1, m);
    PlainStep(names, USIZE, m);
  }

  /** Any two workers stay within one pick of each other over every run. */
  ghost predicate FairForever(names: seq<string>, m: EMessage) {
    forall start: nat, turns, a: nat, b: nat :: start < USIZE && a < |names| && b < |names| ==>
      Spin(start, names, turns, m).picks[a] <= Spin(start, names, turns, m).picks[b] + 1
  }

  lemma FairForeverExactlyIfTheLengthDivides(names: seq<string>, m: EMessage)
    requires names != []
    ensures FairForever(names, m) <==> USIZE % |names| == 0
  {
    if USIZE % |names| == 0 {
      forall start: nat, turns, a: nat, b: nat | start < USIZE && a < |names| && b < |names|
        ensures Spin(start, names, turns, m).picks[a] <= Spin(start, names, turns, m).picks[b] + 1
      {
        RoundRobinIsFair(start, names, turns, m, a, b);
      }
    } else {
      WrapBreaksTheRotation(names, m);
      assert !(Spin(0, names, Plain(USIZE + 1), m).picks[0] <= Spin(0, names, Plain(USIZE + 1), m).picks[|names| - 1] + 1);
    }
  }
}

/**
 The in-memory queue: one bounded channel per topic, and consumers that claim from
 it and keep what they claimed until it is acked or nacked.
 */
module Queue {
  import opened Messages
  import MapSum

  /** Claim ids are fresh tokens: no id is handed out twice. */
  datatype Claimed = Claimed(message: EMessage, claimId: nat)

  /** A send to a full channel waits for room; it fails only on a closed one. */
  class Channel {
    var items: seq<EMessage>
    var closed: bool

    constructor ()
      ensures items == [] && !closed
    {
      items, closed := [], false;
    }

    method Send(m: EMessage) returns (ok: bool)
      modifies this`items
      ensures ok == !closed
      ensures items == old(items) + (if ok then [m] else [])
    {
      ok := !closed;
      if ok {
        items := items + [m];
      }
    }

    method TryRecv() returns (m: Option<EMessage>)
      modifies this`items
      ensures m.Some? <==> old(items) != []
      ensures old(items) == (if m.Some? then [m.value] else []) + items
    {
      if items == [] {
        m := None;
      } else {
        m := Some(items[0]);
        items := items[1..];
      }
    }
  }

  function Single(id: nat, m: EMessage): multiset<EMessage> {
    multiset{m}
  }

  /** Everything the queue still answers for: what waits and what is claimed. */
  ghost function InFlight(items: seq<EMessage>, pending: map<nat, EMessage>): multiset<EMessage> {
    multiset(items) + MapSum.Sum(pending, Single)
  }

  /** Pending claims after a batch was claimed on top of `pending`. */
  function WithBatch(pending: map<nat, EMessage>, batch: seq<Claimed>): map<nat, EMessage> {
    if batch == [] then pending
    else
      var last := batch[|batch| - 1];
      WithBatch(pending, batch[..|batch| - 1])[last.claimId := last.message]
  }

  lemma ClaimConserves(items: seq<EMessage>, pending: map<nat, EMessage>, id: nat)
    requires items != [] && id !in pending
    ensures InFlight(items[1..], pending[id := items[0]]) == InFlight(items, pending)
  {
    MapSum.Insert(pending, Single, id, items[0]);
    assert items == [items[0]] + items[1..];
  }

  lemma NackConserves(items: seq<EMessage>, pending: map<nat, EMessage>, id: nat)
    requires id in pending
    ensures InFlight(items + [pending[id]], pending - {id}) == InFlight(items, pending)
  {
    MapSum.Split(pending, Single, id);
  }

  lemma AckReleases(items: seq<EMessage>, pending: map<nat, EMessage>, id: nat)
    requires id in pending
    ensures InFlight(items, pending - {id}) + multiset{pending[id]} == InFlight(items, pending)
  {
    MapSum.Split(pending, Single, id);
  }

  /** `batch` claims the first messages of `items`, under ids from `first` on. */
  ghost predicate ClaimsFrom(batch: seq<Claimed>, items: seq<EMessage>, first: nat) {
    && |batch| <= |items|
    && forall i :: 0 <= i < |batch| ==> batch[i] == Claimed(items[i], first + i)
  }

  lemma {:induction false} BatchIds(pending: map<nat, EMessage>, batch: seq<Claimed>, items: seq<EMessage>, first: nat)
    requires ClaimsFrom(batch, items, first) && forall id :: id in pending ==> id < first
    ensures forall id :: id in WithBatch(pending, batch) ==> id < first + |batch|
  {
    if batch != [] {
      BatchIds(pending, batch[..|batch| - 1], items, first);
    }
  }

  lemma OneClaimOn(items: seq<EMessage>, n: nat, pending: map<nat, EMessage>, id: nat)
    requires n < |items| && id !in pending
    ensures InFlight(items[n + 1..], pending[id := items[n]]) == InFlight(items[n..], pending)
  {
    ClaimConserves(items[n..], pending, id);
    assert items[n..][1..] == items[n + 1..];
  }

  /** Claiming a batch takes nothing out of flight. */
  lemma {:induction false} BatchConserves(pending: map<nat, EMessage>, batch: seq<Claimed>, items: seq<EMessage>, first: nat)
    requires ClaimsFrom(batch, items, first) && forall id :: id in pending ==> id < first
    ensures InFlight(items[|batch|..], WithBatch(pending, batch)) == InFlight(items, pending)
  {
    if batch == [] {
      assert items[0..] == items;
    } else {
      var n := |batch| - 1;
      BatchConserves(pending, batch[..n], items, first);
      BatchIds(pending, batch[..n], items, first);
      OneClaimOn(items, n, WithBatch(pending, batch[..n]), first + n);
    }
  }

  lemma BatchGrows(pending: map<nat, EMessage>, batch: seq<Claimed>, c: Claimed)
    ensures WithBatch(pending, batch + [c]) == WithBatch(pending, batch)[c.claimId := c.message]
  {
    assert (batch + [c])[..|batch|] == batch;
  }

  class Consumer {
    const channel: Channel
    var pending: map<nat, EMessage>
    var nextId: nat

    ghost predicate Valid()
      reads this
    {
      forall id :: id in pending ==> id < nextId
    }

    constructor (channel: Channel)
      ensures Valid() && this.channel == channel && pending == map[]
    {
      this.channel := channel;
      pending, nextId := map[], 0;
    }

    /** Nothing is lost by claiming: a claim moves the head of the channel to the pending map. */
    method Claim() returns (c: Option<Claimed>)
      requires Valid()
      modifies this, channel`items
      ensures Valid()
      ensures c.Some? <==> old(channel.items) != []
      ensures c.None? ==> pending == old(pending) && channel.items == old(channel.items) && nextId == old(nextId)
      ensures c.Some? ==>
                && c.value.claimId == old(nextId) && nextId == old(nextId) + 1
                && old(channel.items) == [c.value.message] + channel.items
                && pending == old(pending)[c.value.claimId := c.value.message]
      ensures InFlight(channel.items, pending) == InFlight(old(channel.items), old(pending))
    {
      c := None;
      ghost var items := channel.items;
      var m := channel.TryRecv();
      if m.Some? {
        ClaimConserves(items, pending, nextId);
        assert items[1..] == channel.items;
        c := Some(Claimed(m.value, nextId));
        pending := pending[nextId := m.value];
        nextId := nextId + 1;
      }
    }

    /** Up to `max` claims, stopping at an empty channel. */
    method ClaimBatch(max: nat) returns (batch: seq<Claimed>)
      requires Valid()
      modifies this, channel`items
      ensures Valid() && ClaimsFrom(batch, old(channel.items), old(nextId))
      ensures |batch| == if max < |old(channel.items)| then max else |old(channel.items)|
      ensures channel.items == old(channel.items)[|batch|..]
      ensures pending == WithBatch(old(pending), batch)
      ensures InFlight(channel.items, pending) == InFlight(old(channel.items), old(pending))
    {
      batch := [];
      ghost var items := channel.items;
      while |batch| < max
        invariant Valid() && |batch| <= max && nextId == old(nextId) + |batch|
        invariant ClaimsFrom(batch, items, old(nextId)) && channel.items == items[|batch|..]
        invariant pending == WithBatch(old(pending), batch)
      {
        var c := Claim();
        if c.None? {
          break;
        }
        BatchGrows(old(pending), batch, c.value);
        batch := batch + [c.value];
      }
      BatchConserves(old(pending), batch, items, old(nextId));
    }

    method Ack(id: nat)
      requires Valid()
      modifies this`pending
      ensures Valid() && pending == old(pending) - {id}
      ensures id in old(pending) ==>
                InFlight(channel.items, pending) + multiset{old(pending)[id]} == InFlight(channel.items, old(pending))
    {
      if id in pending {
        AckReleases(channel.items, pending, id);
      }
      pending := pending - {id};
    }

    /** The claim goes back to the end of the channel as it was; on a closed channel it stays pending. */
    method Nack(id: nat) returns (ok: bool)
      requires Valid()
      modifies this`pending, channel`items
      ensures Valid()
      ensures ok <==> id in old(pending) && !channel.closed
      ensures ok ==> pending == old(pending) - {id} && channel.items == old(channel.items) + [old(pending)[id]]
      ensures !ok ==> pending == old(pending) && channel.items == old(channel.items)
      ensures InFlight(channel.items, pending) == InFlight(old(channel.items), old(pending))
    {
      if id !in pending {
        return false;
      }
      NackConserves(channel.items, pending, id);
      ok := channel.Send(pending[id]);
      if ok {
        pending := pending - {id};
      }
    }
  }
}

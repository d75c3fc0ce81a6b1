/**
 The channel of channels/channel.hpp with its ring `buffer_`, its two counters and its list of waiting
 consumers on the heap, one method per critical section.  A node is a place in memory: an awaiter comes to lie
 there when a receive has to wait, is gone when that returns, and another one may follow.
 */
module ChannelObject {
  import opened Basics
  import opened Channel
  import L = IntrusiveList
  import RingQueue

  /** The place of the `i`-th value in the buffer. */
  function At(i: nat, capacity: nat): (pos: nat)
    requires capacity > 0
    ensures pos < capacity
  {
    RingQueue.Slot(i, capacity)
  }

  /** A receive that has to wait, while its awaiter exists; `answered` once it was resumed. */
  datatype Receipt = Receipt(ticket: nat, answered: bool)

  /** A node stands for the place of an awaiter, which is called by its address. */
  function AddrOf(node: L.Node?): Addr {
    if node == null then 0 else node.id
  }

  predicate Named(places: map<Addr, L.Node>) {
    0 !in places && forall a | a in places :: places[a].id == a
  }

  /** Where the links of all places lead. */
  ghost function Links(places: map<Addr, L.Node>): (links: map<Addr, Addr>)
    reads places.Values
    ensures links.Keys == places.Keys
  {
    map a | a in places :: AddrOf(places[a].next)
  }

  lemma LinksAt(places: map<Addr, L.Node>)
    ensures forall a | a in places :: a in Links(places) && Links(places)[a] == AddrOf(places[a].next)
  {
  }

  /** The place `last` was linked to the one at `a`, whose own link was cleared before. */
  lemma LinksMoved(places: map<Addr, L.Node>, links: map<Addr, Addr>, a: Addr, last: Addr)
    requires links.Keys == places.Keys && a in places && last in places
    requires AddrOf(places[last].next) == a && (last != a ==> places[a].next == null)
    requires forall b | b in places && b != a && b != last :: AddrOf(places[b].next) == links[b]
    ensures Links(places) == links[a := 0][last := a]
  {
  }

  /** The awaiters that exist, with their links. */
  function Awaiters(receives: map<Addr, Receipt>, links: map<Addr, Addr>): Memory {
    map a | a in receives :: Awaiter(receives[a].ticket, receives[a].answered, if a in links then links[a] else 0)
  }

  lemma AnsweredAt(receives: map<Addr, Receipt>, links: map<Addr, Addr>, a: Addr)
    requires a in receives
    ensures var memory := Awaiters(receives, links);
      a in memory && memory[a].ticket == receives[a].ticket
      && Awaiters(receives[a := Receipt(receives[a].ticket, true)], links) == memory[a := memory[a].(answered := true)]
  {
  }

  lemma LinkedAt(receives: map<Addr, Receipt>, links: map<Addr, Addr>, w: Waiters, ticket: nat, a: Addr)
    requires a !in receives
    ensures var last := if w.size == 0 then a else w.tail;
      Awaiters(receives[a := Receipt(ticket, false)], links[a := 0][last := a]) == Linked(Awaiters(receives, links), w, ticket, a)
  {
  }

  lemma GoneAt(receives: map<Addr, Receipt>, links: map<Addr, Addr>, a: Addr)
    ensures var memory := Awaiters(receives, links);
      && (a in memory && memory[a].answered <==> a in receives && receives[a].answered)
      && Awaiters(receives - {a}, links) == memory - {a}
  {
  }

  /** The values with numbers `head` to `tail` in the ring. */
  ghost function Values(buffer: array<Option<Value>>, head: nat, tail: nat): (values: seq<Value>)
    requires buffer.Length > 0 && head <= tail
    requires forall i | head <= i < tail :: buffer[At(i, buffer.Length)].Some?
    reads buffer
    ensures |values| == tail - head
    ensures forall i | head <= i < tail :: Some(values[i - head]) == buffer[At(i, buffer.Length)]
    decreases tail - head
  {
    if head == tail then [] else [buffer[At(head, buffer.Length)].value] + Values(buffer, head + 1, tail)
  }

  class Buffered {
    const capacity: nat
    const buffer: array<Option<Value>>
    var head: nat
    var tail: nat
    const consumers: L.List
    var places: map<Addr, L.Node>
    var receives: map<Addr, Receipt>
    var producers: seq<Value>
    var tickets: nat
    ghost var sent: seq<Value>
    ghost var deliveries: seq<(nat, Value)>

    /** The buffer: the values with numbers `head` to `tail`. */
    ghost predicate Stored()
      reads this`head, this`tail, buffer
    {
      && buffer.Length == capacity > 0
      && head <= tail <= head + capacity
      && forall i | head <= i < tail :: buffer[At(i, capacity)].Some?
    }

    ghost function Stock(): seq<Value>
      requires Stored()
      reads this`head, this`tail, buffer
    {
      Values(buffer, head, tail)
    }

    /** `node` is null or one of the places where awaiters are or were. */
    ghost predicate Known(node: L.Node?)
      reads this`places
    {
      node == null || (node.id in places && places[node.id] == node)
    }

    ghost predicate Listed()
      reads this`places, this`receives, consumers, places.Values
    {
      && Named(places) && receives.Keys <= places.Keys
      && Known(consumers.head) && Known(consumers.tail) && (forall a | a in places :: Known(places[a].next))
      && (if consumers.size == 0 then consumers.head == consumers.tail == null else consumers.head != null && consumers.tail != null)
    }

    ghost function Waiting(): Waiters
      reads consumers
    {
      Waiters(AddrOf(consumers.head), AddrOf(consumers.tail), consumers.size)
    }

    ghost function Existing(): Memory
      reads this`places, this`receives, places.Values
    {
      Awaiters(receives, Links(places))
    }

    ghost predicate Valid()
      reads this, buffer, consumers, places.Values
    {
      Stored() && Listed()
    }

    ghost function View(): State
      requires Valid()
      reads this, buffer, consumers, places.Values
    {
      State(capacity, Stock(), Waiting(), Existing(), producers, tickets, sent, deliveries, false)
    }

    constructor (capacity: nat)
      requires capacity > 0
      ensures Valid() && fresh(buffer) && fresh(consumers) && places == map[]
      ensures View() == Open(capacity)
    {
      this.capacity := capacity;
      buffer := new Option<Value>[capacity](i => None);
      consumers := new L.List();
      head, tail, producers, tickets := 0, 0, [], 0;
      places, receives := map[], map[];
      sent, deliveries := [], [];
      new;
      assert Existing() == map[];
    }

    /** `buffer_[(tail_++) % kCapacity] = value`: the place written holds no buffered value. */
    method Store(value: Value)
      requires Stored() && tail < head + capacity
      modifies this`tail, buffer
      ensures Stored() && Stock() == old(Stock()) + [value] && tail == old(tail) + 1
    {
      forall i | head <= i < tail ensures At(i, capacity) != At(tail, capacity) {
        RingQueue.SlotsDiffer(i, tail, capacity);
      }
      buffer[tail % capacity] := Some(value);
      tail := tail + 1;
      ghost var was, now := old(Values(buffer, head, tail)), Values(buffer, head, tail);
      forall k | 0 <= k < |now| ensures now[k] == (was + [value])[k] {
        assert Some(now[k]) == buffer[At(head + k, capacity)];
        assert k < |was| ==> Some(was[k]) == old(buffer[At(head + k, capacity)]);
      }
      assert now == was + [value];
    }

    /** `TryPopFront` and what `Resume` does to the receive (76-77). */
    method PopFirst() returns (a: Addr, ticket: nat)
      requires Listed() && consumers.size > 0 && !PopTouches(Existing(), Waiting())
      modifies this`receives, consumers, places.Values
      ensures Listed() && a == old(AddrOf(consumers.head)) && a in old(receives) && ticket == old(receives)[a].ticket
      ensures receives == old(receives)[a := Receipt(ticket, true)]
      ensures Waiting() == Popped(old(Existing()), old(Waiting())) && Links(places) == old(Links(places))
    {
      hide L.List.Walkable, L.List.Valid;
      assert consumers.size > 1 ==> AddrOf(consumers.head.next) in receives;
      var awaiter := consumers.TryPopFront();
      a := awaiter.id;
      ticket := receives[a].ticket;
      receives := receives[a := Receipt(ticket, true)];
    }

    /** The first awaiter of the list is answered, and with it the receive it belongs to. */
    method Answer(value: Value) returns (ticket: nat)
      requires Valid() && consumers.size > 0 && !PopTouches(View().memory, View().waiters)
      modifies this`receives, this`sent, this`deliveries, consumers, places.Values
      ensures Valid() && View() == SendStep(old(View()), value, false)
      ensures old(AddrOf(consumers.head)) in old(receives) && ticket == old(receives[AddrOf(consumers.head)]).ticket
    {
      hide Stored, Listed, PopTouches, Popped, Awaiters, Links;
      ghost var before, links := receives, Links(places);
      var a;
      a, ticket := PopFirst();
      AnsweredAt(before, links, a);
      sent, deliveries := sent + [value], deliveries + [(ticket, value)];
    }

    /** `TrySendImpl` (74-87), which is also `TrySend`. */
    method TrySend(value: Value) returns (ok: bool, resumed: Option<nat>)
      requires Valid() && (consumers.size > 0 ==> !PopTouches(View().memory, View().waiters))
      modifies this, buffer, consumers, places.Values
      ensures Valid() && View() == Step(old(View()), TrySending(value)) && places == old(places)
      ensures ok <==> old(consumers.size) > 0 || old(tail - head) < capacity
      ensures resumed.Some? <==> old(consumers.size) > 0
      ensures resumed.Some? ==> old(AddrOf(consumers.head)) in old(receives) && resumed.value == old(receives[AddrOf(consumers.head)]).ticket
    {
      hide Listed, PopTouches, Popped, Awaiters, Links;
      resumed, ok := None, true;
      if consumers.size > 0 {
        var ticket := Answer(value);
        resumed := Some(ticket);
      } else if tail - head < capacity {
        Store(value);
        sent := sent + [value];
      } else {
        ok := false;
      }
    }

    /** `Send` (29-39): a value that finds no place waits with its producer. */
    method Send(value: Value) returns (suspended: bool, resumed: Option<nat>)
      requires Valid() && (consumers.size > 0 ==> !PopTouches(View().memory, View().waiters))
      modifies this, buffer, consumers, places.Values
      ensures Valid() && View() == Step(old(View()), Sending(value)) && places == old(places)
      ensures suspended <==> old(consumers.size) == 0 && old(tail - head) >= capacity
      ensures resumed.Some? <==> old(consumers.size) > 0
      ensures resumed.Some? ==> old(AddrOf(consumers.head)) in old(receives) && resumed.value == old(receives[AddrOf(consumers.head)]).ticket
    {
      hide Listed, PopTouches, Popped, Awaiters, Links;
      var ok;
      ok, resumed := TrySend(value);
      suspended := !ok;
      if suspended {
        producers := producers + [value];
        sent := sent + [value];
      }
    }

    /** `TryTakeValueFromProducersQueue` (89-94): the first waiting producer's value takes the place just freed. */
    method TakeFromProducers() returns (resumed: bool)
      requires Stored() && tail < head + capacity
      modifies this`tail, this`producers, buffer
      ensures Stored() && (resumed <==> old(producers) != [])
      ensures (Stock(), producers) == Refilled(old(Stock()), old(producers))
    {
      resumed := |producers| > 0;
      if resumed {
        var value := producers[0];
        producers := producers[1..];
        Store(value);
      }
    }

    /** `buffer_[(head_++) % kCapacity]` and what follows it (49-50, 65-66). */
    method TakeOldest() returns (value: Value, resumed: bool)
      requires Stored() && tail > head
      modifies this`head, this`tail, this`producers, buffer
      ensures Stored() && [value] == old(Stock())[..1] && (resumed <==> old(producers) != [])
      ensures (Stock(), producers) == Refilled(old(Stock())[1..], old(producers))
    {
      assert buffer[At(head, capacity)].Some?;
      value := buffer[head % capacity].value;
      ghost var stock := Stock();
      head := head + 1;
      assert Stock() == stock[1..];
      resumed := TakeFromProducers();
    }

    /** `TryReceive` (62-71): the oldest value, and room for the first waiting producer. */
    method TryReceive() returns (result: Option<Value>, resumed: bool)
      requires Valid()
      modifies this`head, this`tail, this`producers, this`deliveries, this`tickets, buffer
      ensures Valid() && View() == Step(old(View()), TryReceiving)
      ensures result == if old(tail) > old(head) then Some(old(View()).buffer[0]) else None
      ensures resumed <==> result.Some? && old(producers) != []
      ensures result.None? ==> unchanged(this)
    {
      hide Stored, Listed, Refilled;
      assert tail > head <==> Stock() != [];
      if tail > head {
        var value;
        value, resumed := TakeOldest();
        result := Some(value);
        deliveries := deliveries + [(tickets, value)];
        tickets := tickets + 1;
      } else {
        result, resumed := None, false;
      }
    }

    /** An awaiter comes to lie at `a`, where none is. */
    method PlaceAt(a: Addr, ticket: nat) returns (place: L.Node)
      requires Listed() && a != 0
      modifies this`places, this`receives
      ensures Listed() && Known(place) && place.id == a && receives == old(receives)[a := Receipt(ticket, false)]
      ensures forall b | b in places :: (b in old(places) && places[b] == old(places)[b]) || fresh(places[b])
      ensures Links(places)[a := 0] == old(Links(places))[a := 0]
    {
      if a !in places {
        place := new L.Node(a);
        places := places[a := place];
      } else {
        place := places[a];
      }
      receives := receives[a := Receipt(ticket, false)];
    }

    /** `PushBack` on the places (57). */
    method LinkLast(place: L.Node)
      requires Listed() && Known(place) && (consumers.size > 0 ==> consumers.tail != null)
      modifies consumers, places.Values
      ensures Listed() && Waiting() == Appended(old(Waiting()), place.id)
      ensures var last := if old(consumers.size) == 0 then place.id else old(AddrOf(consumers.tail));
        Links(places) == old(Links(places))[place.id := 0][last := place.id]
    {
      hide L.List.Walkable, L.List.Valid;
      ghost var last := if consumers.size == 0 then place else consumers.tail;
      assert places[place.id] == place && places[last.id] == last;
      assert place in places.Values && last in places.Values;
      ghost var links := Links(places);
      LinksAt(places);
      hide Links;
      consumers.PushBack(place);
      assert last.next == place && (last != place ==> place.next == null);
      assert forall b | b in places && b != place.id && b != last.id :: places[b] != place && places[b] != last;
      LinksMoved(places, links, place.id, last.id);
    }

    lemma Tailed()
      requires Listed()
      ensures consumers.size > 0 ==> consumers.tail != null
    {
    }

    /** An awaiter comes to lie at `a` and joins the list. */
    method PushLast(a: Addr, ticket: nat)
      requires Listed() && a != 0 && a !in receives && !PushTouches(Existing(), Waiting(), a)
      modifies this`places, this`receives, consumers, places.Values
      ensures Listed() && Waiting() == Appended(old(Waiting()), a) && receives == old(receives)[a := Receipt(ticket, false)]
      ensures forall b | b in places :: (b in old(places) && places[b] == old(places)[b]) || fresh(places[b])
      ensures var last := if old(consumers.size) == 0 then a else old(AddrOf(consumers.tail));
        Links(places) == old(Links(places))[a := 0][last := a]
    {
      hide Links, PushTouches, Awaiters, Appended, Listed;
      assert consumers.size > 0 ==> consumers.tail != null by {
        Tailed();
      }
      var place := PlaceAt(a, ticket);
      assert forall node | node in places.Values :: node in old(places).Values || fresh(node);
      LinkLast(place);
    }

    /** `Receive` without a value (54-58). */
    method Wait(a: Addr)
      requires Valid() && a != 0 && a !in receives && !PushTouches(View().memory, View().waiters, a)
      modifies this`places, this`receives, this`tickets, consumers, places.Values
      ensures Valid() && View() == WaitStep(old(View()), a)
      ensures forall b | b in places :: (b in old(places) && places[b] == old(places)[b]) || fresh(places[b])
      ensures AddrOf(consumers.tail) == a && receives == old(receives)[a := Receipt(old(tickets), false)]
    {
      hide Stored, Listed, PushTouches, Awaiters, Links, Linked;
      LinkedAt(receives, Links(places), Waiting(), tickets, a);
      PushLast(a, tickets);
      tickets := tickets + 1;
    }

    /** `Receive` (46-60): the oldest value, or a place in the list of waiting consumers. */
    method ReceiveAt(a: Addr) returns (ticket: nat, result: Option<Value>, resumed: bool)
      requires Valid() && a != 0 && a !in receives && (tail == head ==> !PushTouches(View().memory, View().waiters, a))
      modifies this, buffer, consumers, places.Values
      ensures Valid() && View() == Step(old(View()), Receiving(a)) && ticket == old(tickets)
      ensures result == if old(tail) > old(head) then Some(old(View()).buffer[0]) else None
      ensures result.Some? ==> places == old(places) && receives == old(receives)
      ensures result.None? ==> AddrOf(consumers.tail) == a && receives == old(receives)[a := Receipt(ticket, false)]
      ensures forall b | b in places :: (b in old(places) && places[b] == old(places)[b]) || fresh(places[b])
      ensures resumed <==> result.Some? && old(producers) != []
    {
      ticket := tickets;
      result, resumed := TryReceive();
      if result.None? {
        Wait(a);
      }
    }

    /** An answered receive returns (58-60), and its awaiter is gone. */
    method Return(a: Addr)
      requires Valid()
      modifies this`receives
      ensures Valid() && View() == Step(old(View()), Returning(a))
      ensures receives == if a in old(receives) && old(receives)[a].answered then old(receives) - {a} else old(receives)
    {
      hide Stored, Awaiters, Links;
      GoneAt(receives, Links(places), a);
      if a in receives && receives[a].answered {
        receives := receives - {a};
      }
    }

    /** Whether the next step for `e` touches an awaiter that is gone, or null. */
    method Misses(e: Event) returns (missed: bool)
      requires Valid() && Fits(View(), e)
      ensures missed <==> Step(View(), e).crashed
    {
      missed := false;
      var first, last := AddrOf(consumers.head), AddrOf(consumers.tail);
      if Sends(e) && consumers.size > 0 {
        missed := first !in receives || (consumers.size > 1 && AddrOf(consumers.head.next) !in receives);
      } else if e.Receiving? && tail == head && consumers.size > 0 {
        missed := last != e.awaiter && last !in receives;
      }
    }
  }

  lemma {:induction false} CrashStays(s: State, events: seq<Event>)
    requires s.crashed
    ensures Run(s, events).crashed
    decreases |events|
  {
    if events != [] {
      CrashStays(s, events[1..]);
    }
  }

  /** Serves one call or return; `crashed` if it touches an awaiter that is gone, or null. */
  method ServeOne(channel: Buffered, e: Event) returns (crashed: bool)
    requires channel.Valid() && Fits(channel.View(), e)
    modifies channel, channel.buffer, channel.consumers, channel.places.Values
    ensures crashed <==> Step(old(channel.View()), e).crashed
    ensures !crashed ==> channel.Valid() && channel.View() == Step(old(channel.View()), e)
    ensures !crashed ==> forall a | a in channel.places ::
      (a in old(channel.places) && channel.places[a] == old(channel.places)[a]) || fresh(channel.places[a])
  {
    crashed := channel.Misses(e);
    if crashed {
      return;
    }
    match e {
      case Sending(v) => var _, _ := channel.Send(v);
      case TrySending(v) => var _, _ := channel.TrySend(v);
      case Receiving(a) => var _, _, _ := channel.ReceiveAt(a);
      case TryReceiving => var _, _ := channel.TryReceive();
      case Returning(a) => channel.Return(a);
    }
  }

  /** Serves events until one crashes: an array, two counters and a linked list do what the channel on values does. */
  method Serve(channel: Buffered, events: seq<Event>) returns (crashed: bool)
    requires channel.Valid() && Possible(channel.View(), events)
    modifies channel, channel.buffer, channel.consumers, channel.places.Values
    ensures crashed <==> Run(old(channel.View()), events).crashed
    ensures !crashed ==> channel.Valid() && channel.View() == Run(old(channel.View()), events)
  {
    hide Step, Fits;
    crashed := false;
    var i := 0;
    while i < |events|
      invariant 0 <= i <= |events| && channel.Valid() && Possible(channel.View(), events[i..])
      invariant Run(channel.View(), events[i..]) == Run(old(channel.View()), events)
      invariant forall a | a in channel.places ::
        (a in old(channel.places) && channel.places[a] == old(channel.places)[a]) || fresh(channel.places[a])
    {
      assert events[i..][1..] == events[i + 1..];
      ghost var before := channel.View();
      assert forall node | node in channel.places.Values :: node in old(channel.places).Values || fresh(node);
      crashed := ServeOne(channel, events[i]);
      if crashed {
        CrashStays(Step(before, events[i]), events[i + 1..]);
        return;
      }
      i := i + 1;
    }
  }
}

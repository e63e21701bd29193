/** The recorder's bounded buffer: it keeps the newest items and says when it dropped one. */
module RingBuffer {
  import opened Wrappers

  /** The last `capacity` items of a sequence. */
  function Newest<T>(items: seq<T>, capacity: nat): (kept: seq<T>)
    ensures |kept| == if |items| <= capacity then |items| else capacity
  {
    if |items| <= capacity then items else items[|items| - capacity..]
  }

  lemma NewestPush<T>(items: seq<T>, capacity: nat, item: T)
    ensures Newest(Newest(items, capacity) + [item], capacity) == Newest(items + [item], capacity)
  {
  }

  lemma NewestOneMore<T>(kept: seq<T>, item: T, capacity: nat)
    requires |kept| <= capacity
    ensures Newest(kept + [item], capacity) ==
      if |kept| < capacity then kept + [item] else if capacity > 0 then kept[1..] + [item] else []
  {
  }

  // ---- any pushes and drains ----------------------------------------------------------------

  datatype Event<T> = Pushed(item: T) | Drained

  /** What was pushed between two drains, what the second one returned, and how many pushes reported a drop. */
  datatype Batch<T> = Batch(pushed: seq<T>, returned: seq<T>, reports: nat)

  /** A buffer with its history: what was pushed since the last drain, the drops reported since, and the drains. */
  datatype History<T> = History(contents: seq<T>, since: seq<T>, reports: nat, batches: seq<Batch<T>>)

  /** `Push` and `Drain` of `DropOldestBuffer` by their contracts, recorded. */
  function Next<T>(h: History<T>, event: Event<T>, capacity: nat): History<T> {
    match event
    case Pushed(item) =>
      var dropped := |h.contents| == capacity;
      h.(contents := Newest(h.contents + [item], capacity), since := h.since + [item],
         reports := h.reports + if dropped then 1 else 0)
    case Drained =>
      History([], [], 0, h.batches + [Batch(h.since, h.contents, h.reports)])
  }

  function Played<T>(events: seq<Event<T>>, capacity: nat): History<T> {
    if events == [] then History([], [], 0, [])
    else Next(Played(events[..|events| - 1], capacity), events[|events| - 1], capacity)
  }

  /** `kept` are the newest of the pushed items, and each of the others was reported as dropped. */
  predicate Accounts<T(==)>(pushed: seq<T>, kept: seq<T>, reports: nat, capacity: nat) {
    kept == Newest(pushed, capacity) && |kept| + reports == |pushed|
  }

  lemma PushAccounts<T>(pushed: seq<T>, kept: seq<T>, reports: nat, capacity: nat, item: T)
    requires Accounts(pushed, kept, reports, capacity)
    ensures Accounts(pushed + [item], Newest(kept + [item], capacity),
              reports + (if |kept| == capacity then 1 else 0), capacity)
  {
    NewestPush(pushed, capacity, item);
  }

  /**
   Over any pushes and drains, the buffer holds the newest items pushed since the last drain, each
   drain returned the newest since the one before, and the pushes that reported a drop are exactly
   as many as the items that are missing.
   */
  lemma {:induction false} KeptPlusReported<T>(events: seq<Event<T>>, capacity: nat)
    ensures var h := Played(events, capacity);
      && Accounts(h.since, h.contents, h.reports, capacity)
      && forall b <- h.batches :: Accounts(b.pushed, b.returned, b.reports, capacity)
  {
    if events != [] {
      hide Newest, Accounts;
      var h := Played(events[..|events| - 1], capacity);
      KeptPlusReported(events[..|events| - 1], capacity);
      match events[|events| - 1]
      case Pushed(item) => PushAccounts(h.since, h.contents, h.reports, capacity, item);
      case Drained => NothingPushed<T>(capacity);
    } else {
      NothingPushed<T>(capacity);
    }
  }

  lemma NothingPushed<T>(capacity: nat)
    ensures Accounts<T>([], [], 0, capacity)
  {
  }

  /** The pushes of the events, in order, are those of the drained batches and then those since the last drain. */
  lemma {:induction false} NothingElsePushed<T>(events: seq<Event<T>>, capacity: nat)
    ensures var h := Played(events, capacity); Pushes(events) == AllPushed(h.batches) + h.since
  {
    if events != [] {
      var h := Played(events[..|events| - 1], capacity);
      NothingElsePushed(events[..|events| - 1], capacity);
      if events[|events| - 1].Drained? {
        var batch := Batch(h.since, h.contents, h.reports);
        assert (h.batches + [batch])[..|h.batches|] == h.batches;
        assert AllPushed(h.batches + [batch]) + [] == AllPushed(h.batches) + h.since;
      }
    }
  }

  /** The items that the events push, in order. */
  function Pushes<T>(events: seq<Event<T>>): seq<T> {
    if events == [] then []
    else Pushes(events[..|events| - 1])
         + match events[|events| - 1] case Pushed(item) => [item] case Drained => []
  }

  function AllPushed<T>(batches: seq<Batch<T>>): seq<T> {
    if batches == [] then [] else AllPushed(batches[..|batches| - 1]) + batches[|batches| - 1].pushed
  }

  // ---- the slots ----------------------------------------------------------------------------

  /** Where the item at a position behind the head is stored. */
  function Slot(head: nat, position: nat, capacity: nat): (slot: nat)
    requires head < capacity && position <= capacity
    ensures slot < capacity
    ensures slot == if head + position < capacity then head + position else head + position - capacity
  {
    Wrap(head + position, capacity);
    (head + position) % capacity
  }

  lemma Wrap(i: nat, capacity: nat)
    requires i < 2 * capacity
    ensures i % capacity == if i < capacity then i else i - capacity
  {
    if i >= capacity {
      assert i == capacity + (i - capacity);
    }
  }

  /** Every position from the head on holds an item. */
  predicate Filled<T>(slots: seq<Option<T>>, head: nat, count: nat) {
    && count <= |slots| && (|slots| > 0 ==> head < |slots|)
    && forall i | 0 <= i < count :: slots[Slot(head, i, |slots|)].Some?
  }

  /** The items from the head on, in order. */
  function Reading<T>(slots: seq<Option<T>>, head: nat, count: nat): (contents: seq<T>)
    requires Filled(slots, head, count)
    ensures |contents| == count
    ensures forall i | 0 <= i < count :: contents[i] == slots[Slot(head, i, |slots|)].value
  {
    if count == 0 then []
    else Reading(slots, head, count - 1) + [slots[Slot(head, count - 1, |slots|)].value]
  }

  lemma SlotsApart(head: nat, i: nat, j: nat, capacity: nat)
    requires head < capacity && i < j < capacity
    ensures Slot(head, i, capacity) != Slot(head, j, capacity)
  {
    hide Slot;
  }

  lemma FilledBounds<T>(slots: seq<Option<T>>, head: nat, count: nat)
    requires Filled(slots, head, count)
    ensures count <= |slots| && (|slots| > 0 ==> head < |slots|)
  {
  }

  /** Storing behind the last item appends it. */
  lemma ReadingAppend<T>(slots: seq<Option<T>>, head: nat, count: nat, item: T)
    requires Filled(slots, head, count) && count < |slots|
    ensures var after := slots[Slot(head, count, |slots|) := Some(item)];
      Filled(after, head, count + 1) && Reading(after, head, count + 1) == Reading(slots, head, count) + [item]
  {
    hide Slot;
    var after := slots[Slot(head, count, |slots|) := Some(item)];
    forall i | 0 <= i < count ensures after[Slot(head, i, |slots|)] == slots[Slot(head, i, |slots|)] {
      SlotsApart(head, i, count, |slots|);
    }
  }

  /** Storing over the head of a full buffer and moving on drops the oldest item. */
  lemma ReadingReplace<T>(slots: seq<Option<T>>, head: nat, item: T)
    requires Filled(slots, head, |slots|) && slots != []
    ensures var after := slots[head := Some(item)]; var next := Slot(head, 1, |slots|);
      Filled(after, next, |slots|) && Reading(after, next, |slots|) == Reading(slots, head, |slots|)[1..] + [item]
  {
    hide Slot;
    var n := |slots|;
    var after, next := slots[head := Some(item)], Slot(head, 1, n);
    forall i | 0 <= i < n - 1 ensures after[Slot(next, i, n)] == slots[Slot(head, i + 1, n)] {
      assert Slot(next, i, n) == Slot(head, i + 1, n) != head;
    }
    assert Slot(next, n - 1, n) == head;
    assert forall i | 0 <= i < n :: after[Slot(next, i, n)].Some?;
  }

  /**
   `DropOldestBuffer`. A capacity of 0, which a configured bound of 0.5 is floored to, keeps
   nothing; the index arithmetic then has no meaning and is skipped.
   */
  class DropOldestBuffer<T(==)> {
    const capacity: nat
    const items: array<Option<T>>
    var head: nat
    var count: nat

    ghost predicate Valid()
      reads this, items
    {
      items.Length == capacity && Filled(items[..], head, count)
    }

    ghost function Contents(): (contents: seq<T>)
      requires Valid()
      reads this, items
      ensures |contents| == count
    {
      Reading(items[..], head, count)
    }

    constructor (capacity: nat)
      ensures Valid() && fresh(items) && this.capacity == capacity && Contents() == []
    {
      this.capacity := capacity;
      items := new Option<T>[capacity](_ => None);
      head := 0;
      count := 0;
    }

    method Push(item: T) returns (dropped: bool)
      requires Valid()
      modifies this, items
      ensures Valid()
      ensures Contents() == Newest(old(Contents()) + [item], capacity)
      ensures dropped == (|old(Contents())| == capacity)
    {
      hide Filled, Reading, Slot, Newest;
      FilledBounds(items[..], head, count);
      NewestOneMore(Contents(), item, capacity);
      if count < capacity {
        ReadingAppend(items[..], head, count, item);
        items[Slot(head, count, capacity)] := Some(item);
        count := count + 1;
        return false;
      }
      if capacity > 0 {
        ReadingReplace(items[..], head, item);
        items[head] := Some(item);
        head := Slot(head, 1, capacity);
      }
      return true;
    }

    method Drain() returns (result: seq<T>)
      requires Valid()
      modifies this, items
      ensures Valid() && Contents() == [] && result == old(Contents())
    {
      result := [];
      for index := 0 to count
        invariant result == Contents()[..index]
      {
        result := result + [items[Slot(head, index, capacity)].value];
      }
      for index := 0 to items.Length
        invariant items.Length == capacity
      {
        items[index] := None;
      }
      head := 0;
      count := 0;
    }
  }
}

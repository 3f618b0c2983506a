/** The ring of storage events: a fixed array that overwrites its oldest entries. */
module InfraRinging {
  /** The last `n` elements, or all when there are fewer. */
  function LastOf<T>(s: seq<T>, n: nat): seq<T> {
    if |s| <= n then s else s[|s| - n..]
  }

  /** The position `i` places after `start` in a ring. */
  function Slot(start: nat, i: nat, cap: nat): nat {
    if start + i < cap then start + i else start + i - cap
  }

  lemma SlotIsModulo(start: nat, i: nat, cap: nat)
    requires start < cap && i <= cap
    ensures (start + i) % cap == Slot(start, i, cap)
  {
    if start + i >= cap {
      assert start + i == 1 * cap + (start + i - cap);
    }
  }

  class InfraRing<T(0)> {
    const events: array<T>
    var head: nat
    var count: nat
    const cap: nat
    /** All events added since the last drain. */
    ghost var added: seq<T>

    ghost predicate Valid()
      reads this, events
    {
      && cap > 0 && events.Length == cap
      && head < cap && count <= cap
      && count == (if |added| < cap then |added| else cap)
      && (count < cap ==> head == count)
      && (forall i | 0 <= i < count :: events[Slot(Start(), i, cap)] == LastOf(added, cap)[i])
    }

    /** Where the oldest event is. */
    function Start(): nat
      reads this
    {
      if count == cap then head else 0
    }

    constructor (capacity: int)
      ensures Valid() && fresh(events)
      ensures cap == (if capacity <= 0 then 100 else capacity) && added == []
    {
      var n := if capacity <= 0 then 100 else capacity;
      cap := n;
      events := new T[n];
      head, count := 0, 0;
      added := [];
    }

    /** Keeps the event; when the ring is full the oldest one is overwritten. */
    method Add(e: T)
      requires Valid()
      modifies this, events
      ensures Valid()
      ensures added == old(added) + [e]
    {
      ghost var kept, start, full := LastOf(added, cap), Start(), count == cap;
      SlotIsModulo(head, 1, cap);
      events[head] := e;
      head := (head + 1) % cap;
      if count < cap {
        count := count + 1;
      }
      added := added + [e];
      forall i | 0 <= i < count
        ensures events[Slot(Start(), i, cap)] == LastOf(added, cap)[i]
      {
        var before := if full then i + 1 else i;
        if i < count - 1 {
          assert Slot(Start(), i, cap) == Slot(start, before, cap) != old(head);
          assert LastOf(added, cap)[i] == kept[before];
        } else {
          assert Slot(Start(), i, cap) == old(head);
        }
      }
    }

    /** Returns what is left of the events added since the last drain, oldest first: the last
        `cap` of them. */
    method Drain() returns (entries: seq<T>)
      requires Valid()
      modifies this
      ensures Valid()
      ensures entries == LastOf(old(added), cap)
      ensures |entries| == if |old(added)| < cap then |old(added)| else cap
      ensures entries == old(added)[|old(added)| - |entries|..]
      ensures added == []
    {
      entries := [];
      if count == 0 {
        return;
      }
      var start := 0;
      if count == cap {
        start := head;
      }
      for i := 0 to count
        invariant unchanged(this)
        invariant entries == LastOf(added, cap)[..i]
      {
        SlotIsModulo(start, i, cap);
        var idx := (start + i) % cap;
        entries := entries + [events[idx]];
      }
      head, count := 0, 0;
      added := [];
    }
  }
}

/** The ring journal as an object over a fixed array, proved against its value form. */
module BoundedJournal {
  import opened Base
  import opened RingJournal

  lemma ModWraps(x: nat, n: nat)
    requires 0 < n && x < 2 * n
    ensures x % n == if x < n then x else x - n
  {
    if x >= n {
      assert x == n * 1 + (x - n);
      assert (x - n) < n;
      DivModUnique(x, n, 1, x - n);
    } else {
      DivModUnique(x, n, 0, x);
    }
  }

  lemma DivModUnique(x: int, n: int, q: int, r: int)
    requires 0 < n && 0 <= r < n && x == n * q + r
    ensures x % n == r
  {
    var d := x / n - q;
    assert x == n * (x / n) + x % n;
    assert n * d == r - x % n;
  }

  class BoundedEventJournal {
    const capacity: nat
    const slots: array<Option<JournalEvent>>
    var head: nat
    var size: nat
    var nextId: nat
    var eventsBySession: map<string, seq<JournalEvent>>
    var watermarks: seq<Watermark>

    /** The array position of the j-th oldest retained event. */
    ghost function At(j: int): int
      reads this`head
    {
      if head + j < capacity then head + j else head + j - capacity
    }

    ghost predicate Valid()
      reads this, slots
    {
      && 1 <= capacity == slots.Length
      && head < capacity
      && size <= capacity
      && (size < capacity ==> head == 0)
      && (forall j :: 0 <= j < size ==> slots[At(j)].Some?)
    }

    ghost function State(): Ring
      requires Valid()
      reads this, slots
    {
      Ring(capacity, seq(size, j requires 0 <= j < size reads this, slots requires Valid() => slots[At(j)].value),
           nextId, eventsBySession, watermarks)
    }

    constructor (requested: Option<int>)
      ensures Valid() && fresh(slots)
      ensures State() == Empty(capacity)
      ensures capacity == match requested
                case None => 1024
                case Some(n) => if n < 1 then 1 else if n > 10000 then 10000 else n
    {
      var c := match requested case Some(n) => n case None => 1024;
      capacity := Max(1, if c < 10000 then c else 10000);
      slots := new Option<JournalEvent>[Max(1, if c < 10000 then c else 10000)](_ => None);
      head, size, nextId := 0, 0, 1;
      eventsBySession, watermarks := map[], [];
    }

    method EvictOldest()
      requires Valid() && size == capacity
      modifies this`eventsBySession, this`watermarks
      ensures Valid()
      ensures State() == Evict(old(State())).(window := old(State()).window)
    {
      assert At(0) == head;
      var evicted := slots[head].value;
      assert evicted == State().window[0];
      if evicted.session in eventsBySession {
        var kept := DeleteId(eventsBySession[evicted.session], evicted.id);
        if kept == [] {
          eventsBySession := eventsBySession - {evicted.session};
        } else {
          eventsBySession := eventsBySession[evicted.session := kept];
        }
      }
      var marks := DeleteMark(watermarks, evicted.session) + [Watermark(evicted.session, evicted.id)];
      ghost var all := marks;
      while |marks| > capacity
        invariant TrimMarks(marks, capacity) == TrimMarks(all, capacity)
        decreases |marks|
      {
        marks := marks[1..];
      }
      watermarks := marks;
      assert State().window == old(State().window);
    }

    /** The oldest slot is overwritten and the head moves on. */
    method Overwrite(e: JournalEvent)
      requires Valid() && size == capacity
      modifies this`head, slots
      ensures Valid() && State() == old(State()).(window := old(State()).window[1..] + [e])
    {
      ghost var window := State().window;
      slots[head] := Some(e);
      ModWraps(head + 1, capacity);
      head := (head + 1) % capacity;
      forall j | 0 <= j < size
        ensures slots[At(j)] == Some((window[1..] + [e])[j])
      {
        if j < size - 1 {
          assert At(j) == old(At(j + 1)) && At(j) != old(head);
          assert window[j + 1] == old(slots[At(j + 1)]).value;
        } else {
          assert At(j) == old(head);
        }
      }
      assert State().window == window[1..] + [e];
    }

    method Extend(e: JournalEvent)
      requires Valid() && size < capacity
      modifies this`size, slots
      ensures Valid() && State() == old(State()).(window := old(State()).window + [e])
    {
      ghost var window := State().window;
      ModWraps(head + size, capacity);
      slots[(head + size) % capacity] := Some(e);
      size := size + 1;
      assert State().window == window + [e];
    }

    method Index(e: JournalEvent)
      requires Valid()
      modifies this`eventsBySession
      ensures Valid()
      ensures State() == old(State()).(index := old(eventsBySession)[e.session := PutId(IndexOf(old(eventsBySession), e.session), e)])
    {
      var events := if e.session in eventsBySession then eventsBySession[e.session] else [];
      eventsBySession := eventsBySession[e.session := PutId(events, e)];
      assert State().window == old(State().window);
    }

    method PublishRecorded(e: JournalEvent)
      requires Valid()
      modifies this, slots
      ensures Valid() && State() == RingJournal.PublishRecorded(old(State()), e)
    {
      if size == capacity {
        EvictOldest();
        Overwrite(e);
      } else {
        Extend(e);
      }
      Index(e);
      ghost var window := State().window;
      nextId := Max(nextId, e.id + 1);
      assert State().window == window;
    }

    method Publish(session: string, kind: string, data: string) returns (e: JournalEvent)
      requires Valid()
      modifies this, slots
      ensures Valid() && e == JournalEvent(old(nextId), session, kind, data)
      ensures State() == RingJournal.PublishRecorded(old(State()), e)
    {
      e := JournalEvent(nextId, session, kind, data);
      PublishRecorded(e);
    }

    method Ends() returns (oldest: nat, newest: nat)
      requires Valid()
      ensures oldest == if State().window == [] then nextId else State().window[0].id
      ensures newest == if State().window == [] then 0 else State().window[size - 1].id
    {
      oldest, newest := nextId, 0;
      if size > 0 {
        assert At(0) == head;
        oldest := slots[head].value.id;
        ModWraps(head + size - 1, capacity);
        assert At(size - 1) == (head + size - 1) % capacity;
        newest := slots[(head + size - 1) % capacity].value.id;
      }
    }

    method Replay(session: string, after: nat) returns (r: Replayed)
      requires Valid()
      ensures r == RingJournal.Replay(State(), session, after)
    {
      var oldest: int, newest: int := Ends();
      var mark := FindMark(watermarks, session);
      if after > newest
         || (after > 0 && mark.Some? && after < mark.value)
         || (after > 0 && mark.None? && after < oldest - 1) {
        return Expired(oldest, newest);
      }
      var events := NewerThan(if session in eventsBySession then eventsBySession[session] else [], after);
      r := Events(events);
    }
  }

  method NewerThan(all: seq<JournalEvent>, after: nat) returns (events: seq<JournalEvent>)
    ensures events == After(all, after)
  {
    events := [];
    for i := 0 to |all|
      invariant events + After(all[i..], after) == After(all, after)
    {
      if all[i].id > after { events := events + [all[i]]; }
      assert all[i..][1..] == all[i + 1..];
    }
  }
}

/**
 Which cursors the replay buffer still serves. Its bounded list of watermarks remembers the
 sessions that lost an event most recently, so expiry is a property of the history alone.
 */
module RingExpiry {
  import opened Base
  import opened RingJournal

  // ---- what a list of lost events says -----------------------------------------------------

  /** The id of the last event a session lost; ids count from 1. 0 when it lost none. */
  function LastLost(lost: seq<JournalEvent>, s: string): (id: nat)
    ensures id <= |lost|
  {
    if lost == [] then 0
    else if lost[|lost| - 1].session == s then |lost|
    else LastLost(lost[..|lost| - 1], s)
  }

  function Sessions(events: seq<JournalEvent>): set<string> {
    set e | e in events :: e.session
  }

  /** Fewer than `capacity` other sessions have lost an event since this one last did. */
  predicate Remembered(lost: seq<JournalEvent>, s: string, capacity: nat) {
    LastLost(lost, s) > 0 && |Sessions(lost[LastLost(lost, s)..])| < capacity
  }

  /** The oldest cursor still served: a forgotten session, or one that lost nothing, is held to all that was lost. */
  function Floor(lost: seq<JournalEvent>, s: string, capacity: nat): nat {
    if Remembered(lost, s, capacity) then LastLost(lost, s) else |lost|
  }

  lemma {:induction false} LastLostAppend(lost: seq<JournalEvent>, e: JournalEvent, s: string)
    ensures LastLost(lost + [e], s) == if e.session == s then |lost| + 1 else LastLost(lost, s)
  {
    assert (lost + [e])[..|lost|] == lost;
  }

  lemma {:induction false} LastLostIs(lost: seq<JournalEvent>, s: string)
    ensures LastLost(lost, s) > 0 ==> lost[LastLost(lost, s) - 1].session == s
    ensures forall i :: LastLost(lost, s) <= i < |lost| ==> lost[i].session != s
  {
    if lost != [] && lost[|lost| - 1].session != s {
      LastLostIs(lost[..|lost| - 1], s);
      assert forall i :: 0 <= i < |lost| - 1 ==> lost[..|lost| - 1][i] == lost[i];
    }
  }

  /** The sessions that lost something behind a point are those whose last loss lies behind it. */
  lemma {:induction false} LostBehind(lost: seq<JournalEvent>, from: nat, t: string)
    requires from <= |lost|
    ensures t in Sessions(lost[from..]) <==> LastLost(lost, t) > from
  {
    LastLostIs(lost, t);
    if LastLost(lost, t) > from { assert lost[from..][LastLost(lost, t) - 1 - from] == lost[LastLost(lost, t) - 1]; }
  }

  // ---- what the watermarks remember --------------------------------------------------------

  ghost predicate Ascend(marks: seq<Watermark>) {
    forall i, j :: 0 <= i < j < |marks| ==> marks[i].id < marks[j].id && marks[i].session != marks[j].session
  }

  predicate Marked(marks: seq<Watermark>, s: string) {
    exists i :: 0 <= i < |marks| && marks[i].session == s
  }

  /** A session without a mark has been pushed out by `capacity` others that lost something later. */
  ghost predicate PushedOut(marks: seq<Watermark>, lost: seq<JournalEvent>, s: string, capacity: nat) {
    LastLost(lost, s) > 0 && !Marked(marks, s) ==>
      |marks| == capacity && forall i :: 0 <= i < |marks| ==> LastLost(lost, s) < marks[i].id
  }

  ghost predicate MostRecent(marks: seq<Watermark>, lost: seq<JournalEvent>, capacity: nat) {
    && |marks| <= capacity
    && Ascend(marks)
    && (forall i :: 0 <= i < |marks| ==> 0 < marks[i].id == LastLost(lost, marks[i].session))
    && (forall s :: PushedOut(marks, lost, s, capacity))
  }

  lemma {:induction false} DeleteAt(marks: seq<Watermark>, i: nat)
    requires Ascend(marks) && i < |marks|
    ensures DeleteMark(marks, marks[i].session) == marks[..i] + marks[i + 1..]
  {
    hide *;
    var s, one, tail := marks[i].session, [marks[i]], marks[i + 1..];
    assert marks == marks[..i] + (one + tail);
    OthersDiffer(marks, i);
    DeleteSplits(marks[..i], one + tail, s);
    DeleteSplits(one, tail, s);
    DeleteOne(marks[i]);
    DeleteAbsentMark(marks[..i], s);
    DeleteAbsentMark(tail, s);
    assert [] + tail == tail;
  }

  lemma {:induction false} OthersDiffer(marks: seq<Watermark>, i: nat)
    requires Ascend(marks) && i < |marks|
    ensures forall k :: 0 <= k < |marks| && k != i ==> marks[k].session != marks[i].session
  {
  }

  lemma {:induction false} DeleteSplits(a: seq<Watermark>, b: seq<Watermark>, s: string)
    ensures DeleteMark(a + b, s) == DeleteMark(a, s) + DeleteMark(b, s)
  {
    if a == [] {
      assert a + b == b;
    } else {
      assert (a + b)[1..] == a[1..] + b;
      DeleteSplits(a[1..], b, s);
    }
  }

  lemma {:induction false} DeleteOne(mark: Watermark)
    ensures DeleteMark([mark], mark.session) == []
  {
    assert [mark][1..] == [];
  }

  lemma {:induction false} DeleteAbsentMark(marks: seq<Watermark>, s: string)
    requires forall i :: 0 <= i < |marks| ==> marks[i].session != s
    ensures DeleteMark(marks, s) == marks
  {
    if marks != [] {
      DeleteAbsentMark(marks[1..], s);
      assert [marks[0]] + marks[1..] == marks;
    }
  }

  lemma {:induction false} TrimIs(marks: seq<Watermark>, capacity: nat)
    requires |marks| <= capacity + 1
    ensures TrimMarks(marks, capacity) == if |marks| > capacity then marks[1..] else marks
  {
  }

  lemma {:induction false} EvictionRemembers(marks: seq<Watermark>, lost: seq<JournalEvent>, e: JournalEvent, capacity: nat)
    requires capacity >= 1 && MostRecent(marks, lost, capacity)
    ensures MostRecent(TrimMarks(DeleteMark(marks, e.session) + [Watermark(e.session, |lost| + 1)], capacity), lost + [e], capacity)
  {
    hide *;
    Parts(marks, lost, capacity);
    var own := Watermark(e.session, |lost| + 1);
    if i: nat :| i < |marks| && marks[i].session == e.session {
      var x := marks[..i] + marks[i + 1..] + [own];
      DeleteAt(marks, i);
      TrimIs(x, capacity);
      forall k | 0 <= k < |x| - 1 ensures x[k] == marks[if k < i then k else k + 1] {}
      Kept(marks, lost, e, x, i, capacity);
    } else {
      DeleteAbsentMark(marks, e.session);
      TrimIs(marks + [own], capacity);
      var d := if |marks| + 1 > capacity then 1 else 0;
      var x := (marks + [own])[d..];
      assert d == 0 ==> x == marks + [own];
      Pushed(marks, lost, e, x, d, capacity);
    }
  }

  lemma {:induction false} Parts(marks: seq<Watermark>, lost: seq<JournalEvent>, capacity: nat)
    requires MostRecent(marks, lost, capacity)
    ensures |marks| <= capacity && Ascend(marks)
    ensures forall i :: 0 <= i < |marks| ==> 0 < marks[i].id == LastLost(lost, marks[i].session) <= |lost|
    ensures forall s :: PushedOut(marks, lost, s, capacity)
  {
  }

  // The session that lost e had a mark, at i: it moves to the end.
  lemma {:induction false} Kept(marks: seq<Watermark>, lost: seq<JournalEvent>, e: JournalEvent, x: seq<Watermark>, i: nat,
                                capacity: nat)
    requires MostRecent(marks, lost, capacity) && i < |marks| && marks[i].session == e.session
    requires |x| == |marks| && x[|x| - 1] == Watermark(e.session, |lost| + 1)
    requires forall k :: 0 <= k < |x| - 1 ==> x[k] == marks[if k < i then k else k + 1]
    ensures MostRecent(x, lost + [e], capacity)
  {
    hide LastLost;
    Parts(marks, lost, capacity);
    forall k | 0 <= k < |x| ensures 0 < x[k].id == LastLost(lost + [e], x[k].session) {
      LastLostAppend(lost, e, x[k].session);
      OthersDiffer(marks, i);
    }
    forall s ensures PushedOut(x, lost + [e], s, capacity) {
      LastLostAppend(lost, e, s);
      if k: nat :| k < |marks| && marks[k].session == s {
        assert x[if k < i then k else if k == i then |x| - 1 else k - 1].session == s;
      } else {
        assert !Marked(marks, s) && PushedOut(marks, lost, s, capacity);
        StillPushedOut(marks, x, i, LastLost(lost, s), |lost| + 1);
      }
    }
  }

  lemma {:induction false} StillPushedOut(marks: seq<Watermark>, x: seq<Watermark>, i: nat, last: nat, id: nat)
    requires |x| == |marks| && |x| > 0 && x[|x| - 1].id == id > last
    requires forall k :: 0 <= k < |x| - 1 ==> x[k] == marks[if k < i then k else k + 1]
    ensures (forall k :: 0 <= k < |marks| ==> last < marks[k].id) ==> forall k :: 0 <= k < |x| ==> last < x[k].id
  {
  }

  // It had none: its mark is new, and the oldest one goes when there are too many.
  lemma {:induction false} Pushed(marks: seq<Watermark>, lost: seq<JournalEvent>, e: JournalEvent, x: seq<Watermark>, d: nat,
                                  capacity: nat)
    requires capacity >= 1 && MostRecent(marks, lost, capacity)
    requires forall k :: 0 <= k < |marks| ==> marks[k].session != e.session
    requires d == if |marks| + 1 > capacity then 1 else 0
    requires x == (marks + [Watermark(e.session, |lost| + 1)])[d..]
    ensures MostRecent(x, lost + [e], capacity)
  {
    hide LastLost;
    Parts(marks, lost, capacity);
    assert x[|x| - 1] == Watermark(e.session, |lost| + 1);
    assert forall k :: 0 <= k < |x| - 1 ==> x[k] == marks[k + d];
    forall k | 0 <= k < |x| ensures 0 < x[k].id == LastLost(lost + [e], x[k].session) {
      LastLostAppend(lost, e, x[k].session);
    }
    forall s ensures PushedOut(x, lost + [e], s, capacity) {
      LastLostAppend(lost, e, s);
      if k: nat :| d <= k < |marks| && marks[k].session == s {
        assert x[k - d].session == s;
      } else if s != e.session {
        assert PushedOut(marks, lost, s, capacity);
        if Marked(marks, s) { assert d == 1 && marks[0].session == s; }
      }
    }
  }

  // ---- counting ----------------------------------------------------------------------------

  function MarkSessions(marks: seq<Watermark>): set<string> {
    set i | 0 <= i < |marks| :: marks[i].session
  }

  lemma {:induction false} FirstSession(marks: seq<Watermark>)
    requires marks != []
    ensures MarkSessions(marks) == {marks[0].session} + MarkSessions(marks[1..])
  {
    forall t | t in MarkSessions(marks) ensures t in {marks[0].session} + MarkSessions(marks[1..]) {
      var i :| 0 <= i < |marks| && marks[i].session == t;
      if i > 0 { assert marks[1..][i - 1] == marks[i]; }
    }
    forall t | t in MarkSessions(marks[1..]) ensures t in MarkSessions(marks) {
      var i :| 0 <= i < |marks[1..]| && marks[1..][i].session == t;
      assert marks[1..][i] == marks[i + 1];
    }
  }

  lemma {:induction false} CountSessions(marks: seq<Watermark>)
    ensures |MarkSessions(marks)| <= |marks|
    ensures Ascend(marks) ==> |MarkSessions(marks)| == |marks|
  {
    if marks == [] {
      assert MarkSessions(marks) == {};
    } else {
      var m := marks[1..];
      CountSessions(m);
      FirstSession(marks);
      if Ascend(marks) { TailAscends(marks); }
      CountOne(marks[0].session, MarkSessions(m));
    }
  }

  lemma {:induction false} TailAscends(marks: seq<Watermark>)
    requires Ascend(marks) && marks != []
    ensures Ascend(marks[1..]) && marks[0].session !in MarkSessions(marks[1..])
  {
    assert forall i :: 0 <= i < |marks| - 1 ==> marks[1..][i] == marks[i + 1];
  }

  lemma {:induction false} CountOne(s: string, rest: set<string>)
    ensures |{s} + rest| <= 1 + |rest|
    ensures s !in rest ==> |{s} + rest| == 1 + |rest|
  {
    if s in rest { assert {s} + rest == rest; }
  }

  lemma {:induction false} Subset(a: set<string>, b: set<string>)
    requires a <= b
    ensures |a| <= |b|
  {
    assert b == a + (b - a);
  }

  lemma {:induction false} FoundFirst(marks: seq<Watermark>, s: string)
    requires Ascend(marks)
    ensures FindMark(marks, s).Some? <==> Marked(marks, s)
    ensures forall i :: 0 <= i < |marks| && marks[i].session == s ==> FindMark(marks, s) == Some(marks[i].id)
  {
    if marks != [] {
      var m := marks[1..];
      assert forall i :: 0 <= i < |m| ==> m[i] == marks[i + 1];
      FoundFirst(m, s);
      if Marked(marks, s) && marks[0].session != s {
        var i :| 0 <= i < |marks| && marks[i].session == s;
        assert m[i - 1].session == s;
      }
    }
  }

  /** A session has a watermark exactly when it is remembered, and then it is the id of its last loss. */
  lemma {:induction false} MarkTells(marks: seq<Watermark>, lost: seq<JournalEvent>, s: string, capacity: nat)
    requires MostRecent(marks, lost, capacity)
    ensures FindMark(marks, s) == if Remembered(lost, s, capacity) then Some(LastLost(lost, s)) else None
  {
    FoundFirst(marks, s);
    var last := LastLost(lost, s);
    var later := Sessions(lost[last..]);
    assert PushedOut(marks, lost, s, capacity);
    if Marked(marks, s) {
      var j :| 0 <= j < |marks| && marks[j].session == s;
      LaterAreMarked(marks, lost, j, capacity);
      CountSessions(marks[j + 1..]);
      Subset(later, MarkSessions(marks[j + 1..]));
    } else if last > 0 {
      forall t | t in MarkSessions(marks) ensures t in later {
        LostBehind(lost, last, t);
      }
      CountSessions(marks);
      Subset(MarkSessions(marks), later);
    }
  }

  lemma {:induction false} LaterAreMarked(marks: seq<Watermark>, lost: seq<JournalEvent>, j: nat, capacity: nat)
    requires MostRecent(marks, lost, capacity) && j < |marks|
    ensures Sessions(lost[LastLost(lost, marks[j].session)..]) <= MarkSessions(marks[j + 1..])
  {
    var last := LastLost(lost, marks[j].session);
    forall t | t in Sessions(lost[last..]) ensures t in MarkSessions(marks[j + 1..]) {
      LostBehind(lost, last, t);
      assert PushedOut(marks, lost, t, capacity);
      assert Marked(marks, t);
      var k :| 0 <= k < |marks| && marks[k].session == t;
      assert k > j;
      assert marks[j + 1..][k - j - 1] == marks[k];
    }
  }

  // ---- every history -----------------------------------------------------------------------

  lemma {:induction false} MarksAreMostRecent(capacity: nat, history: seq<JournalEvent>)
    requires capacity >= 1 && Consecutive(history)
    ensures MostRecent(PublishAll(Empty(capacity), history).watermarks, history[..Lost(capacity, history)], capacity)
    decreases |history|
  {
    if history == [] {
      assert history[..Lost(capacity, history)] == [];
    } else {
      var front, e := history[..|history| - 1], history[|history| - 1];
      ConsecutiveGrow(front);
      MarksAreMostRecent(capacity, front);
      RingRepresentsHistory(capacity, front);
      KeepsCapacity(capacity, front);
      assert history == front + [e];
      OneMorePublished(PublishAll(Empty(capacity), front), front, e);
    }
  }

  lemma {:induction false} OneMorePublished(r: Ring, front: seq<JournalEvent>, e: JournalEvent)
    requires r.capacity >= 1 && Represents(r, front) && Consecutive(front)
    requires MostRecent(r.watermarks, front[..Lost(r.capacity, front)], r.capacity)
    ensures MostRecent(PublishRecorded(r, e).watermarks, (front + [e])[..Lost(r.capacity, front + [e])], r.capacity)
  {
    var k := Lost(r.capacity, front);
    WindowIs(r, front);
    hide *;
    PublishedMarks(r, e);
    LostGrows(r.capacity, front, e);
    if |front| >= r.capacity {
      var lost := front[..k];
      EvictionRemembers(r.watermarks, lost, r.window[0], r.capacity);
      assert (front + [e])[..k + 1] == lost + [r.window[0]];
    } else {
      assert (front + [e])[..0] == front[..0];
    }
  }

  lemma {:induction false} WindowIs(r: Ring, front: seq<JournalEvent>)
    requires r.capacity >= 1 && Represents(r, front) && Consecutive(front)
    ensures var k := Lost(r.capacity, front);
            && k <= |front| && |r.window| == |front| - k
            && (|front| >= r.capacity ==> |r.window| == r.capacity && r.window[0] == front[k] && r.window[0].id == k + 1)
  {
  }

  lemma {:induction false} PublishedMarks(r: Ring, e: JournalEvent)
    requires r.capacity >= 1
    ensures |r.window| < r.capacity ==> PublishRecorded(r, e).watermarks == r.watermarks
    ensures |r.window| >= r.capacity ==>
              var x := r.window[0];
              PublishRecorded(r, e).watermarks ==
                TrimMarks(DeleteMark(r.watermarks, x.session) + [Watermark(x.session, x.id)], r.capacity)
  {
  }

  lemma {:induction false} LostGrows(capacity: nat, front: seq<JournalEvent>, e: JournalEvent)
    ensures |front| >= capacity ==> Lost(capacity, front + [e]) == Lost(capacity, front) + 1 == |front| + 1 - capacity
    ensures |front| < capacity ==> Lost(capacity, front + [e]) == 0 == Lost(capacity, front)
  {
  }

  lemma {:induction false} ConsecutiveGrow(history: seq<JournalEvent>)
    requires Consecutive(history)
    ensures IdsGrow(history)
  {
  }

  /**
   For every history of `publish` calls: a cursor is expired exactly when it lies beyond the newest event or, above 0,
   below the floor of its session. Any other cursor gets every event ever published to the session after it, in order;
   cursor 0 gets what the buffer retains.
   */
  lemma {:induction false} ReplayIsExact(capacity: nat, history: seq<JournalEvent>, s: string, after: nat)
    requires capacity >= 1 && Consecutive(history)
    ensures var r, k := PublishAll(Empty(capacity), history), Lost(capacity, history);
            && (Replay(r, s, after).Expired? <==> after > |history| || (after > 0 && after < Floor(history[..k], s, capacity)))
            && (Replay(r, s, after).Expired? ==> Replay(r, s, after) == Expired(k + 1, |history|))
            && (after > 0 && Replay(r, s, after).Events? ==> Replay(r, s, after).events == Of(history[after..], s))
            && (after == 0 ==> Replay(r, s, after) == Events(Of(history[k..], s)))
  {
    hide *;
    EmptyCapacity(capacity);
    var r, k := PublishAll(Empty(capacity), history), Lost(capacity, history);
    ConsecutiveGrow(history);
    RingRepresentsHistory(capacity, history);
    NextIdAfter(capacity, history);
    MarksAreMostRecent(capacity, history);
    KeepsCapacity(capacity, history);
    MarkTells(r.watermarks, history[..k], s, capacity);
    ExpiryIs(r, history, s, after);
    if Replay(r, s, after).Events? {
      if after > 0 { LiveCursorReplays(r, history, s, after); } else { RetainedReplays(r, history, s); }
    }
  }

  lemma EmptyCapacity(capacity: nat)
    ensures Empty(capacity).capacity == capacity
  {
  }

  lemma {:induction false} KeepsCapacity(capacity: nat, history: seq<JournalEvent>)
    requires capacity >= 1
    ensures PublishAll(Empty(capacity), history).capacity == capacity && Lost(capacity, history) <= |history|
  {
  }

  lemma {:induction false} ExpiryIs(r: Ring, history: seq<JournalEvent>, s: string, after: nat)
    requires r.capacity >= 1 && Represents(r, history) && Consecutive(history) && r.nextId == |history| + 1
    requires var lost := history[..Lost(r.capacity, history)];
             FindMark(r.watermarks, s) == if Remembered(lost, s, r.capacity) then Some(LastLost(lost, s)) else None
    ensures Replay(r, s, after).Expired? <==>
              after > |history| || (after > 0 && after < Floor(history[..Lost(r.capacity, history)], s, r.capacity))
    ensures Replay(r, s, after).Expired? ==> Replay(r, s, after) == Expired(Lost(r.capacity, history) + 1, |history|)
  {
    var k := Lost(r.capacity, history);
    if history != [] { assert r.window[0] == history[k] && r.window[|r.window| - 1] == history[|history| - 1]; }
  }

  lemma {:induction false} RetainedReplays(r: Ring, history: seq<JournalEvent>, s: string)
    requires Represents(r, history) && Consecutive(history) && Replay(r, s, 0).Events?
    ensures Replay(r, s, 0) == Events(Of(history[Lost(r.capacity, history)..], s))
  {
    OfAfter(r.window, history, Lost(r.capacity, history), 0, s);
  }

  // ---- expiry in vain ----------------------------------------------------------------------

  lemma {:induction false} NoneBehind(lost: seq<JournalEvent>, after: nat, s: string)
    requires after <= |lost|
    ensures Of(lost[after..], s) == [] <==> LastLost(lost, s) <= after
  {
    LostBehind(lost, after, s);
    var tail := lost[after..];
    if LastLost(lost, s) <= after {
      forall e | e in tail ensures e.session != s { assert e.session in Sessions(tail); }
      OfNothing(tail, s);
    } else {
      var e :| e in tail && e.session == s;
      OfMembers(tail, s, e);
    }
  }

  /**
   A cursor below what was lost is refused although its session lost nothing after it exactly when the session is not
   remembered, because it lost nothing at all or was pushed out, and its last loss is not after the cursor.
   */
  lemma {:induction false} ExpiresInVainIff(capacity: nat, history: seq<JournalEvent>, s: string, after: nat)
    requires capacity >= 1 && Consecutive(history) && 0 < after < Lost(capacity, history)
    ensures var r, k := PublishAll(Empty(capacity), history), Lost(capacity, history);
            (Replay(r, s, after).Expired? && Of(history[after..k], s) == [])
            <==> !Remembered(history[..k], s, capacity) && LastLost(history[..k], s) <= after
  {
    var k := Lost(capacity, history);
    ReplayIsExact(capacity, history, s, after);
    NoneBehind(history[..k], after, s);
    assert history[..k][after..] == history[after..k];
  }

  /** The smallest case: a session that lost nothing, behind two events another one lost. */
  lemma {:induction false} BystanderExpiresInVain(first: JournalEvent, second: JournalEvent, own: JournalEvent)
    requires first.id == 1 && second.id == 2 && own.id == 3
    requires first.session != own.session && second.session != own.session
    ensures Replay(PublishAll(Empty(1), [first, second, own]), own.session, 1).Expired?
    ensures Of([first, second, own][1..2], own.session) == []
  {
    var history := [first, second, own];
    var lost := history[..2];
    assert lost == [first, second] && Lost(1, history) == 2;
    LastLostIs(lost, own.session);
    assert LastLost(lost, own.session) == 0;
    ExpiresInVainIff(1, history, own.session, 1);
  }
}

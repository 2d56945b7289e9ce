/**
 The process-local replay buffer: a ring of recent events, a per-session index into it
 and a bounded list of watermarks telling which session lost events to eviction.
 */
module RingJournal {
  import opened Base

  datatype JournalEvent = JournalEvent(id: nat, session: string, kind: string, data: string)

  datatype Watermark = Watermark(session: string, id: nat)

  /** The journal as a value; `window` lists the retained events, oldest first. */
  datatype Ring = Ring(
    capacity: nat,
    window: seq<JournalEvent>,
    nextId: nat,
    index: map<string, seq<JournalEvent>>,
    watermarks: seq<Watermark>)

  datatype Replayed = Events(events: seq<JournalEvent>) | Expired(oldestAvailableId: nat, newestId: nat)

  // ---- insertion-ordered maps as lists ---------------------------------------------------

  function DeleteId(events: seq<JournalEvent>, id: nat): seq<JournalEvent> {
    if events == [] then []
    else (if events[0].id == id then [] else [events[0]]) + DeleteId(events[1..], id)
  }

  function PutId(events: seq<JournalEvent>, e: JournalEvent): seq<JournalEvent> {
    if events == [] then [e]
    else if events[0].id == e.id then [e] + events[1..]
    else [events[0]] + PutId(events[1..], e)
  }

  function DeleteMark(marks: seq<Watermark>, session: string): seq<Watermark> {
    if marks == [] then []
    else (if marks[0].session == session then [] else [marks[0]]) + DeleteMark(marks[1..], session)
  }

  function FindMark(marks: seq<Watermark>, session: string): Option<nat> {
    if marks == [] then None
    else if marks[0].session == session then Some(marks[0].id)
    else FindMark(marks[1..], session)
  }

  function TrimMarks(marks: seq<Watermark>, capacity: nat): seq<Watermark>
    decreases |marks|
  {
    if |marks| > capacity then TrimMarks(marks[1..], capacity) else marks
  }

  function IndexOf(index: map<string, seq<JournalEvent>>, session: string): seq<JournalEvent> {
    if session in index then index[session] else []
  }

  // ---- operations -------------------------------------------------------------------------

  function Unindex(index: map<string, seq<JournalEvent>>, e: JournalEvent): map<string, seq<JournalEvent>> {
    if e.session !in index then index
    else
      var kept := DeleteId(index[e.session], e.id);
      if kept == [] then index - {e.session} else index[e.session := kept]
  }

  function Evict(r: Ring): Ring
    requires r.window != []
  {
    var e := r.window[0];
    r.(window := r.window[1..],
       index := Unindex(r.index, e),
       watermarks := TrimMarks(DeleteMark(r.watermarks, e.session) + [Watermark(e.session, e.id)], r.capacity))
  }

  function PublishRecorded(r: Ring, e: JournalEvent): Ring
    requires r.capacity >= 1
  {
    var kept := if |r.window| >= r.capacity then Evict(r) else r;
    kept.(window := kept.window + [e],
          nextId := Max(r.nextId, e.id + 1),
          index := kept.index[e.session := PutId(IndexOf(kept.index, e.session), e)])
  }

  function After(events: seq<JournalEvent>, id: nat): seq<JournalEvent> {
    if events == [] then []
    else (if events[0].id > id then [events[0]] else []) + After(events[1..], id)
  }

  function Replay(r: Ring, session: string, after: nat): Replayed {
    var oldest := if r.window == [] then r.nextId else r.window[0].id;
    var newest := if r.window == [] then 0 else r.window[|r.window| - 1].id;
    var mark := FindMark(r.watermarks, session);
    if after > newest
       || (after > 0 && mark.Some? && after < mark.value)
       || (after > 0 && mark.None? && after < oldest - 1)
    then Expired(oldest, newest)
    else Events(After(IndexOf(r.index, session), after))
  }

  // ---- histories ---------------------------------------------------------------------------

  function Empty(capacity: nat): Ring { Ring(capacity, [], 1, map[], []) }

  function PublishAll(r: Ring, history: seq<JournalEvent>): Ring
    requires r.capacity >= 1
    ensures PublishAll(r, history).capacity == r.capacity
    decreases |history|
  {
    if history == [] then r
    else PublishRecorded(PublishAll(r, history[..|history| - 1]), history[|history| - 1])
  }

  function Of(events: seq<JournalEvent>, session: string): seq<JournalEvent> {
    if events == [] then []
    else (if events[0].session == session then [events[0]] else []) + Of(events[1..], session)
  }

  /** Within a session ids only grow: true of `publish` and of events numbered per session by the ledger. */
  ghost predicate IdsGrow(history: seq<JournalEvent>) {
    forall i, j {:trigger GrowsAt(history, i, j)} :: 0 <= i < j < |history| ==> GrowsAt(history, i, j)
  }

  predicate GrowsAt(history: seq<JournalEvent>, i: nat, j: nat)
    requires i < j < |history|
  {
    history[i].session == history[j].session ==> history[i].id < history[j].id
  }

  /** The ids `publish` hands out. */
  ghost predicate Consecutive(history: seq<JournalEvent>) {
    forall i :: 0 <= i < |history| ==> history[i].id == i + 1
  }

  function Lost(capacity: nat, history: seq<JournalEvent>): nat {
    if |history| > capacity then |history| - capacity else 0
  }

  ghost predicate IndexIsWindow(r: Ring) {
    && (forall s :: IndexOf(r.index, s) == Of(r.window, s))
    && (forall s :: s in r.index ==> r.index[s] != [])
  }

  ghost predicate MarksAreNewestLost(r: Ring, lost: seq<JournalEvent>) {
    && |r.watermarks| <= r.capacity
    && (forall w :: w in r.watermarks ==> NewestLost(lost, w.session, w.id))
  }

  ghost predicate NewestLost(lost: seq<JournalEvent>, s: string, id: nat) {
    && (exists i :: 0 <= i < |lost| && lost[i].session == s && lost[i].id == id)
    && (forall i :: 0 <= i < |lost| && lost[i].session == s ==> lost[i].id <= id)
  }

  ghost predicate Represents(r: Ring, history: seq<JournalEvent>) {
    var k := Lost(r.capacity, history);
    && r.window == history[k..]
    && IndexIsWindow(r)
    && MarksAreNewestLost(r, history[..k])
  }

  // ---- list lemmas ---------------------------------------------------------------------------

  lemma {:induction false} OfConcat(a: seq<JournalEvent>, b: seq<JournalEvent>, s: string)
    ensures Of(a + b, s) == Of(a, s) + Of(b, s)
  {
    if a == [] {
      assert a + b == b;
    } else {
      var first := if a[0].session == s then [a[0]] else [];
      assert (a + b)[1..] == a[1..] + b;
      OfConcat(a[1..], b, s);
      assert first + (Of(a[1..], s) + Of(b, s)) == (first + Of(a[1..], s)) + Of(b, s);
    }
  }

  lemma {:induction false} OfMembers(a: seq<JournalEvent>, s: string, e: JournalEvent)
    ensures e in Of(a, s) <==> e in a && e.session == s
  {
    if a != [] { OfMembers(a[1..], s, e); }
  }

  lemma {:induction false} PutNewAppends(events: seq<JournalEvent>, e: JournalEvent)
    requires forall x :: x in events ==> x.id != e.id
    ensures PutId(events, e) == events + [e]
  {
    if events != [] { PutNewAppends(events[1..], e); }
  }

  lemma {:induction false} DeleteAbsent(events: seq<JournalEvent>, id: nat)
    requires forall x :: x in events ==> x.id != id
    ensures DeleteId(events, id) == events
  {
    if events != [] { DeleteAbsent(events[1..], id); }
  }

  lemma {:induction false} MarksLeft(marks: seq<Watermark>, session: string)
    ensures forall w :: w in DeleteMark(marks, session) <==> w in marks && w.session != session
    ensures |DeleteMark(marks, session)| <= |marks|
  {
    if marks != [] { MarksLeft(marks[1..], session); }
  }

  lemma {:induction false} FoundIsMember(marks: seq<Watermark>, s: string)
    ensures FindMark(marks, s).Some? ==> Watermark(s, FindMark(marks, s).value) in marks
    ensures FindMark(marks, s).None? ==> forall w :: w in marks ==> w.session != s
  {
    if marks != [] { FoundIsMember(marks[1..], s); }
  }

  lemma {:induction false} TrimKeepsSome(marks: seq<Watermark>, capacity: nat)
    ensures |TrimMarks(marks, capacity)| <= capacity
    ensures forall w :: w in TrimMarks(marks, capacity) ==> w in marks
    decreases |marks|
  {
    if |marks| > capacity { TrimKeepsSome(marks[1..], capacity); }
  }

  // ---- one publication -------------------------------------------------------------------------

  lemma EvictKeepsIndex(r: Ring)
    requires r.window != [] && IndexIsWindow(r) && IdsGrow(r.window)
    ensures IndexIsWindow(Evict(r))
  {
    var e, rest := r.window[0], r.window[1..];
    var x := Evict(r);
    assert r.window == [e] + rest;
    forall s ensures IndexOf(x.index, s) == Of(rest, s) {
      OfConcat([e], rest, s);
      if s == e.session {
        forall y | y in Of(rest, s) ensures y.id != e.id {
          OfMembers(rest, s, y);
          var i :| 0 <= i < |rest| && rest[i] == y;
          assert GrowsAt(r.window, 0, i + 1);
        }
        DeleteAbsent(Of(rest, s), e.id);
        assert Of([e], s) == [e];
        assert IndexOf(r.index, s) == [e] + Of(rest, s);
      }
    }
  }

  lemma AddKeepsIndex(r: Ring, e: JournalEvent)
    requires IndexIsWindow(r) && IdsGrow(r.window + [e])
    ensures IndexIsWindow(r.(window := r.window + [e],
                             nextId := Max(r.nextId, e.id + 1),
                             index := r.index[e.session := PutId(IndexOf(r.index, e.session), e)]))
  {
    hide *;
    var index := r.index[e.session := PutId(IndexOf(r.index, e.session), e)];
    IndexParts(r);
    NewIdIsFresh(r.window, e);
    PutNewAppends(Of(r.window, e.session), e);
    forall s ensures IndexOf(index, s) == Of(r.window + [e], s) {
      OfOneMore(r.window, e, s);
      IndexUpdated(r.index, e.session, PutId(IndexOf(r.index, e.session), e), s);
    }
    forall s | s in index ensures index[s] != [] {
      if s == e.session { assert index[s] == Of(r.window, e.session) + [e]; }
    }
    MaxIs(r.nextId, e.id + 1);
    PartsIndex(r.(window := r.window + [e], nextId := Max(r.nextId, e.id + 1), index := index));
  }

  lemma IndexParts(r: Ring)
    requires IndexIsWindow(r)
    ensures forall s :: IndexOf(r.index, s) == Of(r.window, s)
    ensures forall s :: s in r.index ==> r.index[s] != []
  {
  }

  lemma PartsIndex(r: Ring)
    requires forall s :: IndexOf(r.index, s) == Of(r.window, s)
    requires forall s :: s in r.index ==> r.index[s] != []
    ensures IndexIsWindow(r)
  {
  }

  lemma IndexUpdated(index: map<string, seq<JournalEvent>>, session: string, events: seq<JournalEvent>, s: string)
    ensures IndexOf(index[session := events], s) == if s == session then events else IndexOf(index, s)
  {
  }

  lemma OfOneMore(window: seq<JournalEvent>, e: JournalEvent, s: string)
    ensures Of(window + [e], s) == Of(window, s) + (if s == e.session then [e] else [])
  {
    OfConcat(window, [e], s);
    assert [e][1..] == [];
    assert Of([e], s) == if s == e.session then [e] else [];
  }

  lemma NewIdIsFresh(window: seq<JournalEvent>, e: JournalEvent)
    requires IdsGrow(window + [e])
    ensures forall y :: y in Of(window, e.session) ==> y.id != e.id
  {
    forall y | y in Of(window, e.session) ensures y.id != e.id {
      OfMembers(window, e.session, y);
      var i :| 0 <= i < |window| && window[i] == y;
      assert GrowsAt(window + [e], i, |window|);
    }
  }

  lemma EvictKeepsMarks(r: Ring, lost: seq<JournalEvent>)
    requires r.window != [] && MarksAreNewestLost(r, lost) && IdsGrow(lost + [r.window[0]])
    ensures MarksAreNewestLost(Evict(r), lost + [r.window[0]])
  {
    var e := r.window[0];
    var more := lost + [e];
    MarksLeft(r.watermarks, e.session);
    TrimKeepsSome(DeleteMark(r.watermarks, e.session) + [Watermark(e.session, e.id)], r.capacity);
    forall w | w in Evict(r).watermarks ensures NewestLost(more, w.session, w.id) {
      if w == Watermark(e.session, e.id) {
        assert more[|lost|] == e;
        forall i | 0 <= i < |more| && more[i].session == w.session ensures more[i].id <= w.id {
          if i < |lost| { assert GrowsAt(more, i, |lost|); }
        }
      } else {
        assert w in r.watermarks && NewestLost(lost, w.session, w.id);
        var i :| 0 <= i < |lost| && lost[i].session == w.session && lost[i].id == w.id;
        assert more[i].session == w.session && more[i].id == w.id;
      }
    }
  }

  lemma GrowInPart(history: seq<JournalEvent>, from: nat, to: nat)
    requires IdsGrow(history) && from <= to <= |history|
    ensures IdsGrow(history[from..to])
  {
    var part := history[from..to];
    forall i, j | 0 <= i < j < |part| ensures GrowsAt(part, i, j) {
      assert GrowsAt(history, from + i, from + j);
    }
  }

  lemma ShiftedWindow(history: seq<JournalEvent>, e: JournalEvent, k: nat)
    requires k < |history| && IdsGrow(history + [e])
    ensures var all := history + [e];
            && history[..k] + [history[k]] == all[..k + 1]
            && history[k..][1..] + [e] == all[k + 1..]
            && IdsGrow(history[k..]) && IdsGrow(all[..k + 1]) && IdsGrow(all[k + 1..])
  {
    var all := history + [e];
    GrowInPart(all, k, |history|);
    GrowInPart(all, 0, k + 1);
    GrowInPart(all, k + 1, |all|);
    assert all[k..|history|] == history[k..] && all[0..k + 1] == all[..k + 1] && all[k + 1..|all|] == all[k + 1..];
    assert history[..k] + [history[k]] == all[..k + 1];
    assert history[k..][1..] + [e] == all[k + 1..];
  }

  lemma PublishKeeps(r: Ring, history: seq<JournalEvent>, e: JournalEvent)
    requires r.capacity >= 1 && Represents(r, history) && IdsGrow(history + [e])
    ensures Represents(PublishRecorded(r, e), history + [e])
  {
    if |r.window| >= r.capacity { FullRingKeeps(r, history, e); } else { RoomyRingKeeps(r, history, e); }
  }

  lemma FullRingKeeps(r: Ring, history: seq<JournalEvent>, e: JournalEvent)
    requires r.capacity >= 1 && Represents(r, history) && IdsGrow(history + [e]) && |r.window| >= r.capacity
    ensures Represents(PublishRecorded(r, e), history + [e])
  {
    hide *;
    var k := Lost(r.capacity, history);
    RepresentsParts(r, history);
    ShiftedWindow(history, e, k);
    EvictKeepsIndex(r);
    EvictKeepsMarks(r, history[..k]);
    EvictedWindow(r);
    AddKeepsIndex(Evict(r), e);
    PublishedFull(r, e);
    NowRepresents(r, history, e);
  }

  lemma RepresentsParts(r: Ring, history: seq<JournalEvent>)
    requires r.capacity >= 1 && Represents(r, history) && |r.window| >= r.capacity
    ensures var k := Lost(r.capacity, history);
            && k < |history| && r.window == history[k..] && IndexIsWindow(r) && MarksAreNewestLost(r, history[..k])
  {
  }

  lemma EvictedWindow(r: Ring)
    requires r.capacity >= 1 && r.window != []
    ensures Evict(r).window == r.window[1..] && Evict(r).capacity == r.capacity
  {
  }

  lemma PublishedFull(r: Ring, e: JournalEvent)
    requires r.capacity >= 1 && r.window != [] && |r.window| >= r.capacity
    ensures var x := Evict(r);
            PublishRecorded(r, e)
            == x.(window := x.window + [e], nextId := Max(x.nextId, e.id + 1),
                  index := x.index[e.session := PutId(IndexOf(x.index, e.session), e)])
  {
  }

  lemma NowRepresents(r: Ring, history: seq<JournalEvent>, e: JournalEvent)
    requires r.capacity >= 1 && |r.window| >= r.capacity
    requires var k := Lost(r.capacity, history);
             && k < |history| && r.window == history[k..]
             && history[..k] + [history[k]] == (history + [e])[..k + 1]
             && history[k..][1..] + [e] == (history + [e])[k + 1..]
             && IndexIsWindow(PublishRecorded(r, e))
             && MarksAreNewestLost(Evict(r), history[..k] + [r.window[0]])
    ensures Represents(PublishRecorded(r, e), history + [e])
  {
  }

  lemma RoomyRingKeeps(r: Ring, history: seq<JournalEvent>, e: JournalEvent)
    requires r.capacity >= 1 && Represents(r, history) && IdsGrow(history + [e]) && |r.window| < r.capacity
    ensures Represents(PublishRecorded(r, e), history + [e])
  {
    assert r.window + [e] == (history + [e])[0..] && (history + [e])[..0] == history[..0];
    AddKeepsIndex(r, e);
  }

  /**
   For every history of publications whose ids grow within each session: the window is the newest `capacity`
   events, the per-session index is the window split by session in id order, and there are at most `capacity`
   watermarks, each the newest id its session has lost.
   */
  lemma {:induction false} RingRepresentsHistory(capacity: nat, history: seq<JournalEvent>)
    requires capacity >= 1 && IdsGrow(history)
    ensures Represents(PublishAll(Empty(capacity), history), history)
    decreases |history|
  {
    if history != [] {
      var front, e := history[..|history| - 1], history[|history| - 1];
      assert history == front + [e] && front == history[0..|history| - 1];
      GrowInPart(history, 0, |history| - 1);
      RingRepresentsHistory(capacity, front);
      PublishKeeps(PublishAll(Empty(capacity), front), front, e);
    } else {
      assert history[0..] == [] == history[..0];
    }
  }

  // ---- replay --------------------------------------------------------------------------------------

  lemma {:induction false} AfterKeepsAll(events: seq<JournalEvent>, id: nat)
    requires forall e :: e in events ==> e.id > id
    ensures After(events, id) == events
  {
    if events != [] { AfterKeepsAll(events[1..], id); }
  }

  lemma {:induction false} AfterKeepsNone(events: seq<JournalEvent>, id: nat)
    requires forall e :: e in events ==> e.id <= id
    ensures After(events, id) == []
  {
    if events != [] { AfterKeepsNone(events[1..], id); }
  }

  lemma {:induction false} AfterConcat(a: seq<JournalEvent>, b: seq<JournalEvent>, id: nat)
    ensures After(a + b, id) == After(a, id) + After(b, id)
  {
    if a == [] {
      assert a + b == b;
    } else {
      var first := if a[0].id > id then [a[0]] else [];
      assert (a + b)[1..] == a[1..] + b;
      AfterConcat(a[1..], b, id);
      assert first + (After(a[1..], id) + After(b, id)) == (first + After(a[1..], id)) + After(b, id);
    }
  }

  /** With consecutive ids, dropping ids up to a cursor is dropping that many events. */
  lemma OfAfter(events: seq<JournalEvent>, history: seq<JournalEvent>, from: nat, after: nat, s: string)
    requires Consecutive(history) && from <= |history| && events == history[from..] && after <= |history|
    ensures After(Of(events, s), after) == Of(history[Max(from, after)..], s)
  {
    hide *;
    var cut: nat := if from < after then after else from;
    MaxIs(from, after);
    var old_, new_ := history[from..cut], history[cut..];
    assert events == old_ + new_ && history[cut..|history|] == new_;
    OfConcat(old_, new_, s);
    AfterConcat(Of(old_, s), Of(new_, s), after);
    StretchIds(history, from, cut, after, s);
    StretchIds(history, cut, |history|, after, s);
    AfterKeepsNone(Of(old_, s), after);
    AfterKeepsAll(Of(new_, s), after);
    assert [] + Of(new_, s) == Of(new_, s);
  }

  lemma MaxIs(a: nat, b: nat)
    ensures Max(a, b) == if a < b then b else a
  {
  }

  // A stretch of consecutive ids lies on one side of the cursor.
  lemma StretchIds(history: seq<JournalEvent>, lo: nat, hi: nat, after: nat, s: string)
    requires Consecutive(history) && lo <= hi <= |history|
    ensures hi <= after || hi == lo ==> forall e :: e in Of(history[lo..hi], s) ==> e.id <= after
    ensures after <= lo ==> forall e :: e in Of(history[lo..hi], s) ==> e.id > after
  {
    forall e | e in Of(history[lo..hi], s) ensures lo < e.id <= hi {
      OfMembers(history[lo..hi], s, e);
      var i :| 0 <= i < |history[lo..hi]| && history[lo..hi][i] == e;
      assert history[lo..hi][i] == history[lo + i];
    }
  }

  lemma {:induction false} OfNothing(events: seq<JournalEvent>, s: string)
    requires forall e :: e in events ==> e.session != s
    ensures Of(events, s) == []
  {
    if events != [] { OfNothing(events[1..], s); }
  }

  /** Nothing of the session lies between the cursor and the window. */
  lemma NothingLostAfter(r: Ring, history: seq<JournalEvent>, s: string, after: nat)
    requires Represents(r, history) && Consecutive(history) && 0 < after <= |history|
    requires Replay(r, s, after).Events?
    ensures var k := Lost(r.capacity, history);
            after < k ==> Of(history[after..k], s) == []
  {
    var k := Lost(r.capacity, history);
    FoundIsMember(r.watermarks, s);
    if after < k {
      assert k == |history| || r.window[0] == history[k];
      forall e | e in history[after..k] ensures e.session != s {
        var i :| 0 <= i < k - after && history[after..k][i] == e;
        assert history[..k][after + i] == e && e.id == after + i + 1;
      }
      OfNothing(history[after..k], s);
    }
  }

  lemma LiveCursorReplays(r: Ring, history: seq<JournalEvent>, s: string, after: nat)
    requires r.capacity >= 1 && Represents(r, history) && Consecutive(history) && after > 0
    requires Replay(r, s, after).Events?
    ensures after <= |history| && Replay(r, s, after).events == Of(history[after..], s)
  {
    var k := Lost(r.capacity, history);
    assert history != [] ==> r.window[|r.window| - 1] == history[|history| - 1];
    OfAfter(r.window, history, k, after, s);
    if after < k {
      NothingLostAfter(r, history, s, after);
      assert history[after..] == history[after..k] + history[k..];
      OfConcat(history[after..k], history[k..], s);
    }
  }

  lemma {:induction false} NextIdAfter(capacity: nat, history: seq<JournalEvent>)
    requires capacity >= 1 && Consecutive(history)
    ensures PublishAll(Empty(capacity), history).nextId == |history| + 1
    decreases |history|
  {
    if history != [] { NextIdAfter(capacity, history[..|history| - 1]); }
  }
}

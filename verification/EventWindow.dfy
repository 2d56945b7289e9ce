/**
 The durable event table: per session a contiguous window of sequence numbers above a
 low watermark, from which a cursor is replayed or declared expired.
 */
module EventWindow {
  import opened Base
  import opened ReceiptTables

  /** A payload is its canonical JSON text. */
  datatype Event = Event(kind: string, payload: string)

  datatype EventKey = EventKey(session: string, seqNo: nat)

  datatype Row = Row(seqNo: nat, event: Event)

  datatype Window = Window(sessions: map<string, SessionRow>, events: map<EventKey, Event>)

  datatype Appended = Appended(window: Window, seqNo: nat)

  datatype Replayed =
    | Rows(lowWatermark: nat, nextEventSeq: nat, rows: seq<Row>)
    | Expired(lowWatermark: nat, nextEventSeq: nat)

  function SessionOf(w: Window, session: string): SessionRow {
    if session in w.sessions then w.sessions[session] else FRESH_SESSION
  }

  function DropBelow(events: map<EventKey, Event>, session: string, low: nat): map<EventKey, Event> {
    map k | k in events && !(k.session == session && k.seqNo < low) :: events[k]
  }

  /** None when the sequence is exhausted or the primary key is taken; the transaction then leaves no trace. */
  function Append(w: Window, session: string, event: Event, limit: nat): Option<Appended> {
    var row := SessionOf(w, session);
    var n := row.nextEventSeq;
    if !IsSafeInteger(n + 1) || EventKey(session, n) in w.events then None
    else
      var low: nat := Max(row.lowWatermark, n + 1 - limit);
      Some(Appended(
        Window(w.sessions[session := row.(nextEventSeq := n + 1, lowWatermark := low)],
               DropBelow(w.events[EventKey(session, n) := event], session, low)),
        n))
  }

  /** The rows of a session with a sequence number above `after`, in order, up to `bound`. */
  function Select(events: map<EventKey, Event>, session: string, after: nat, bound: nat): seq<Row>
    decreases bound - after
  {
    if after + 1 >= bound then []
    else
      var k := EventKey(session, after + 1);
      (if k in events then [Row(after + 1, events[k])] else []) + Select(events, session, after + 1, bound)
  }

  function Replay(w: Window, session: string, after: nat): Replayed {
    if session !in w.sessions then
      if after == 0 then Rows(1, 1, []) else Expired(1, 1)
    else
      var row := w.sessions[session];
      if after < row.lowWatermark - 1 || after > row.nextEventSeq - 1
      then Expired(row.lowWatermark, row.nextEventSeq)
      else Rows(row.lowWatermark, row.nextEventSeq, Select(w.events, session, after, row.nextEventSeq))
  }

  // ---- runs ---------------------------------------------------------------------------

  /** Appends under whatever limit the ledger was opened with, and any receipt operation in between. */
  datatype WindowOp = DoAppend(session: string, event: Event, limit: nat) | DoOther(receipts: map<Ref, Receipt>, op: Op)

  function ApplyOp(w: Window, op: WindowOp): Window {
    match op
    case DoAppend(session, event, limit) =>
      (match Append(w, session, event, limit) case Some(a) => a.window case None => w)
    case DoOther(receipts, o) => w.(sessions := Apply(Tables(w.sessions, receipts), o).sessions)
  }

  function History(h: map<string, seq<Event>>, session: string): seq<Event> {
    if session in h then h[session] else []
  }

  /** Everything ever appended, per session. */
  function Record(w: Window, h: map<string, seq<Event>>, op: WindowOp): map<string, seq<Event>> {
    if op.DoAppend? && Append(w, op.session, op.event, op.limit).Some?
    then h[op.session := History(h, op.session) + [op.event]] else h
  }

  function RunOps(w: Window, ops: seq<WindowOp>): Window
    decreases |ops|
  {
    if ops == [] then w else RunOps(ApplyOp(w, ops[0]), ops[1..])
  }

  function RecordOps(w: Window, h: map<string, seq<Event>>, ops: seq<WindowOp>): map<string, seq<Event>>
    decreases |ops|
  {
    if ops == [] then h else RecordOps(ApplyOp(w, ops[0]), Record(w, h, ops[0]), ops[1..])
  }

  predicate LimitsPositive(ops: seq<WindowOp>) {
    forall op :: op in ops && op.DoAppend? ==> op.limit >= 1
  }

  // ---- invariant ------------------------------------------------------------------------

  /** Retained sequence numbers are exactly [lowWatermark, nextEventSeq), each with the event appended under it. */
  ghost predicate Describes(w: Window, h: map<string, seq<Event>>) {
    && SessionsMatch(w.sessions, h)
    && KeysMatch(w)
    && ContentsMatch(w.events, h)
  }

  ghost predicate SessionsMatch(sessions: map<string, SessionRow>, h: map<string, seq<Event>>) {
    && (forall s :: s in sessions ==> SessionDescribed(sessions[s], |History(h, s)|))
    && (forall s :: s !in sessions ==> History(h, s) == [])
  }

  predicate SessionDescribed(row: SessionRow, length: nat) {
    row.nextEventSeq == length + 1 && 1 <= row.lowWatermark <= row.nextEventSeq
  }

  ghost predicate KeysMatch(w: Window) {
    forall k :: k in w.events <==>
      k.session in w.sessions && w.sessions[k.session].lowWatermark <= k.seqNo < w.sessions[k.session].nextEventSeq
  }

  ghost predicate ContentsMatch(events: map<EventKey, Event>, h: map<string, seq<Event>>) {
    forall k :: k in events ==>
      0 < k.seqNo <= |History(h, k.session)| && events[k] == History(h, k.session)[k.seqNo - 1]
  }

  lemma AppendKeepsKeys(w: Window, session: string, event: Event, limit: nat)
    requires KeysMatch(w) && limit >= 1 && Append(w, session, event, limit).Some?
    requires SessionOf(w, session).lowWatermark <= SessionOf(w, session).nextEventSeq
    requires session !in w.sessions ==> forall k :: k in w.events ==> k.session != session
    ensures KeysMatch(Append(w, session, event, limit).value.window)
  {
  }

  lemma AppendKeepsContents(w: Window, h: map<string, seq<Event>>, session: string, event: Event, limit: nat)
    requires ContentsMatch(w.events, h) && Append(w, session, event, limit).Some?
    requires SessionOf(w, session).nextEventSeq == |History(h, session)| + 1
    ensures ContentsMatch(Append(w, session, event, limit).value.window.events,
                          h[session := History(h, session) + [event]])
  {
  }

  lemma AppendKeepsSessions(sessions: map<string, SessionRow>, h: map<string, seq<Event>>,
                            session: string, row: SessionRow, event: Event)
    requires SessionsMatch(sessions, h)
    requires row.nextEventSeq == |History(h, session)| + 2 && 1 <= row.lowWatermark <= row.nextEventSeq
    ensures SessionsMatch(sessions[session := row], h[session := History(h, session) + [event]])
  {
    var h2 := h[session := History(h, session) + [event]];
    forall s ensures s != session ==> History(h2, s) == History(h, s) {}
  }

  lemma AppendKeeps(w: Window, h: map<string, seq<Event>>, session: string, event: Event, limit: nat)
    requires Describes(w, h) && limit >= 1 && Append(w, session, event, limit).Some?
    ensures var a := Append(w, session, event, limit).value;
            && Describes(a.window, h[session := History(h, session) + [event]])
            && a.seqNo == |History(h, session)| + 1
            && SessionOf(a.window, session).nextEventSeq - SessionOf(a.window, session).lowWatermark <= limit
            && SessionOf(w, session).lowWatermark <= SessionOf(a.window, session).lowWatermark
            && SessionOf(a.window, session).lowWatermark == Max(SessionOf(w, session).lowWatermark, a.seqNo + 1 - limit)
    ensures var a := Append(w, session, event, limit).value;
            forall s: string, k: nat ::
              EventKey(s, k) in a.window.events <==>
                if s == session then (k == a.seqNo || EventKey(s, k) in w.events) && k + limit > a.seqNo else EventKey(s, k) in w.events
  {
    assert SessionDescribed(SessionOf(w, session), |History(h, session)|);
    var row := SessionOf(Append(w, session, event, limit).value.window, session);
    AppendKeepsSessions(w.sessions, h, session, row, event);
    AppendKeepsKeys(w, session, event, limit);
    AppendKeepsContents(w, h, session, event, limit);
    AppendRetains(w, session, event, limit);
  }

  /** An append goes through as long as the number after the next is a safe integer: its key is never taken. */
  lemma AppendsIff(w: Window, h: map<string, seq<Event>>, session: string, event: Event, limit: nat)
    requires Describes(w, h)
    ensures Append(w, session, event, limit).Some? <==> |History(h, session)| + 2 <= 9007199254740991
  {
    assert SessionDescribed(SessionOf(w, session), |History(h, session)|);
  }

  /** An append deletes what the limit leaves no room for, of its own session and nothing else. */
  lemma AppendRetains(w: Window, session: string, event: Event, limit: nat)
    requires KeysMatch(w) && limit >= 1 && Append(w, session, event, limit).Some?
    requires SessionOf(w, session).lowWatermark <= SessionOf(w, session).nextEventSeq
    requires session !in w.sessions ==> forall k :: k in w.events ==> k.session != session
    ensures var a := Append(w, session, event, limit).value;
            forall s: string, k: nat ::
              EventKey(s, k) in a.window.events <==>
                if s == session then (k == a.seqNo || EventKey(s, k) in w.events) && k + limit > a.seqNo else EventKey(s, k) in w.events
  {
    var a, row := Append(w, session, event, limit).value, SessionOf(w, session);
    var low: nat := Max(row.lowWatermark, a.seqNo + 1 - limit);
    forall s: string, k: nat
      ensures EventKey(s, k) in a.window.events <==>
                if s == session then (k == a.seqNo || EventKey(s, k) in w.events) && k + limit > a.seqNo else EventKey(s, k) in w.events
    {
      DroppedIs(w.events[EventKey(session, a.seqNo) := event], session, low, s, k);
      if s == session && EventKey(s, k) in w.events { assert row.lowWatermark <= k; }
    }
  }

  lemma DroppedIs(events: map<EventKey, Event>, session: string, low: nat, s: string, k: nat)
    ensures EventKey(s, k) in DropBelow(events, session, low) <==> EventKey(s, k) in events && !(s == session && k < low)
  {
  }

  ghost predicate SameBounds(sessions: map<string, SessionRow>, after: map<string, SessionRow>) {
    && (forall s :: s in sessions ==> s in after)
    && (forall s :: s in after ==>
          if s in sessions then
            after[s].lowWatermark == sessions[s].lowWatermark && after[s].nextEventSeq == sessions[s].nextEventSeq
          else after[s].lowWatermark == after[s].nextEventSeq == 1)
  }

  lemma OtherKeepsBounds(t: Tables, op: Op)
    ensures SameBounds(t.sessions, Apply(t, op).sessions)
  {
  }

  lemma SameBoundsKeepKeys(w: Window, sessions: map<string, SessionRow>)
    requires KeysMatch(w) && SameBounds(w.sessions, sessions)
    ensures KeysMatch(w.(sessions := sessions))
  {
  }

  lemma SameBoundsKeepSessions(w: Window, h: map<string, seq<Event>>, sessions: map<string, SessionRow>)
    requires SessionsMatch(w.sessions, h) && SameBounds(w.sessions, sessions)
    ensures SessionsMatch(sessions, h)
  {
    forall s | s in sessions ensures SessionDescribed(sessions[s], |History(h, s)|) {
      if s in w.sessions { assert SessionDescribed(w.sessions[s], |History(h, s)|); }
    }
  }

  lemma OtherKeeps(w: Window, h: map<string, seq<Event>>, receipts: map<Ref, Receipt>, op: Op)
    requires Describes(w, h)
    ensures Describes(ApplyOp(w, DoOther(receipts, op)), h)
    ensures forall s :: SessionOf(ApplyOp(w, DoOther(receipts, op)), s).lowWatermark == SessionOf(w, s).lowWatermark
  {
    var x := ApplyOp(w, DoOther(receipts, op));
    OtherKeepsBounds(Tables(w.sessions, receipts), op);
    SameBoundsKeepKeys(w, x.sessions);
    SameBoundsKeepSessions(w, h, x.sessions);
  }

  lemma OpKeeps(w: Window, h: map<string, seq<Event>>, op: WindowOp)
    requires Describes(w, h) && (op.DoAppend? ==> op.limit >= 1)
    ensures Describes(ApplyOp(w, op), Record(w, h, op))
    ensures forall s :: SessionOf(w, s).lowWatermark <= SessionOf(ApplyOp(w, op), s).lowWatermark
  {
    match op
    case DoAppend(s, e, limit) =>
      if Append(w, s, e, limit).Some? { AppendKeeps(w, h, s, e, limit); }
    case DoOther(receipts, o) => OtherKeeps(w, h, receipts, o);
  }

  lemma {:induction false} RunsKeepWindow(w: Window, h: map<string, seq<Event>>, ops: seq<WindowOp>)
    requires Describes(w, h) && LimitsPositive(ops)
    ensures Describes(RunOps(w, ops), RecordOps(w, h, ops))
    ensures forall s :: SessionOf(w, s).lowWatermark <= SessionOf(RunOps(w, ops), s).lowWatermark
    decreases |ops|
  {
    if ops != [] {
      var op := ops[0];
      OpKeeps(w, h, op);
      RunsKeepWindow(ApplyOp(w, op), Record(w, h, op), ops[1..]);
    }
  }

  // ---- replay ------------------------------------------------------------------------------

  function Numbered(events: seq<Event>, from: nat): seq<Row>
  {
    seq(|events|, i requires 0 <= i < |events| => Row(from + i, events[i]))
  }

  lemma {:induction false} SelectIsSuffix(w: Window, h: map<string, seq<Event>>, session: string, after: nat)
    requires Describes(w, h) && session in w.sessions
    requires w.sessions[session].lowWatermark - 1 <= after <= |History(h, session)|
    ensures Select(w.events, session, after, w.sessions[session].nextEventSeq)
            == Numbered(History(h, session)[after..], after + 1)
    decreases |History(h, session)| - after
  {
    hide *;
    var events, bound := History(h, session), w.sessions[session].nextEventSeq;
    RowRetained(w, h, session, after);
    SelectStep(w.events, session, after, bound);
    if after < |events| {
      SelectIsSuffix(w, h, session, after + 1);
      assert events[after..] == [events[after]] + events[after + 1..];
      NumberedFirst(events[after], events[after + 1..], after + 1);
    } else {
      assert events[after..] == [];
      NumberedNone(after + 1);
    }
  }

  lemma SelectStep(events: map<EventKey, Event>, session: string, after: nat, bound: nat)
    ensures after + 1 >= bound ==> Select(events, session, after, bound) == []
    ensures after + 1 < bound && EventKey(session, after + 1) in events ==>
              Select(events, session, after, bound)
              == [Row(after + 1, events[EventKey(session, after + 1)])] + Select(events, session, after + 1, bound)
  {
  }

  lemma RowRetained(w: Window, h: map<string, seq<Event>>, session: string, after: nat)
    requires Describes(w, h) && session in w.sessions
    requires w.sessions[session].lowWatermark - 1 <= after
    ensures w.sessions[session].nextEventSeq == |History(h, session)| + 1
    ensures after < |History(h, session)| ==>
              var k := EventKey(session, after + 1); k in w.events && w.events[k] == History(h, session)[after]
  {
    assert SessionDescribed(w.sessions[session], |History(h, session)|);
  }

  lemma NumberedFirst(event: Event, events: seq<Event>, from: nat)
    ensures Numbered([event] + events, from) == [Row(from, event)] + Numbered(events, from + 1)
  {
  }

  lemma NumberedNone(from: nat)
    ensures Numbered([], from) == []
  {
  }

  /** Some event after the cursor is gone. */
  ghost predicate LostAfter(w: Window, h: map<string, seq<Event>>, session: string, after: nat) {
    exists k: nat :: after < k <= |History(h, session)| && EventKey(session, k) !in w.events
  }

  /**
   In any reachable window a replay is expired exactly when an event after the cursor was deleted or the cursor
   lies beyond the newest event; otherwise it is everything ever appended after the cursor, in order.
   */
  lemma ReplayIsExact(w: Window, h: map<string, seq<Event>>, session: string, after: nat)
    requires Describes(w, h)
    ensures Replay(w, session, after).Expired? <==>
              LostAfter(w, h, session, after) || after > |History(h, session)|
    ensures Replay(w, session, after).Rows? ==>
              Replay(w, session, after).rows == Numbered(History(h, session)[after..], after + 1)
    ensures var r := Replay(w, session, after);
            && r.nextEventSeq == |History(h, session)| + 1
            && (forall k: nat :: EventKey(session, k) in w.events <==> r.lowWatermark <= k < r.nextEventSeq)
  {
    if session in w.sessions {
      var row := w.sessions[session];
      assert SessionDescribed(row, |History(h, session)|);
      if after < row.lowWatermark - 1 && after <= |History(h, session)| {
        var k: nat := after + 1;
        assert EventKey(session, k) !in w.events;
      } else if after <= |History(h, session)| {
        SelectIsSuffix(w, h, session, after);
        forall k: nat | after < k <= |History(h, session)| ensures EventKey(session, k) in w.events {}
      }
    } else {
      assert History(h, session) == [];
    }
  }

  /** The same over whole runs from an empty table, whatever limits the ledger was opened with on the way. */
  lemma WindowOverRuns(ops: seq<WindowOp>, session: string, after: nat)
    requires LimitsPositive(ops)
    ensures var w, h := RunOps(Window(map[], map[]), ops), RecordOps(Window(map[], map[]), map[], ops);
            && Describes(w, h)
            && (Replay(w, session, after).Expired? <==>
                  LostAfter(w, h, session, after) || after > |History(h, session)|)
            && (Replay(w, session, after).Rows? ==>
                  Replay(w, session, after).rows == Numbered(History(h, session)[after..], after + 1))
  {
    RunsKeepWindow(Window(map[], map[]), map[], ops);
    ReplayIsExact(RunOps(Window(map[], map[]), ops), RecordOps(Window(map[], map[]), map[], ops), session, after);
  }

  // ---- one limit ---------------------------------------------------------------------------

  predicate LimitsAre(ops: seq<WindowOp>, limit: nat) {
    forall op :: op in ops && op.DoAppend? ==> op.limit == limit
  }

  /** The newest `limit` events of every session are retained, and no others. */
  ghost predicate NewestRetained(w: Window, h: map<string, seq<Event>>, limit: nat) {
    forall s :: SessionOf(w, s).lowWatermark == Max(1, |History(h, s)| + 1 - limit)
  }

  lemma OpRetains(w: Window, h: map<string, seq<Event>>, op: WindowOp, limit: nat)
    requires Describes(w, h) && limit >= 1 && NewestRetained(w, h, limit) && (op.DoAppend? ==> op.limit == limit)
    ensures NewestRetained(ApplyOp(w, op), Record(w, h, op), limit)
  {
    match op
    case DoOther(receipts, o) => OtherKeeps(w, h, receipts, o);
    case DoAppend(session, event, _) =>
      if Append(w, session, event, limit).Some? {
        forall s ensures SessionOf(ApplyOp(w, op), s).lowWatermark == Max(1, |History(Record(w, h, op), s)| + 1 - limit) {
          SessionRetains(w, h, session, event, limit, s);
        }
      }
  }

  lemma SessionRetains(w: Window, h: map<string, seq<Event>>, session: string, event: Event, limit: nat, s: string)
    requires Describes(w, h) && limit >= 1 && Append(w, session, event, limit).Some?
    requires NewestRetained(w, h, limit)
    ensures var g := h[session := History(h, session) + [event]];
            SessionOf(Append(w, session, event, limit).value.window, s).lowWatermark == Max(1, |History(g, s)| + 1 - limit)
  {
    hide *;
    RetainedIs(w, h, limit, s);
    RetainedIs(w, h, limit, session);
    AppendKeeps(w, h, session, event, limit);
    OnlyOneSession(w, h, session, event, limit, s);
    LaterMax(|History(h, session)| + 1, limit);
  }

  lemma LaterMax(n: nat, limit: nat)
    ensures Max(Max(1, n - limit), n + 1 - limit) == Max(1, n + 1 - limit)
  {
  }

  lemma RetainedIs(w: Window, h: map<string, seq<Event>>, limit: nat, s: string)
    requires NewestRetained(w, h, limit)
    ensures SessionOf(w, s).lowWatermark == Max(1, |History(h, s)| + 1 - limit)
  {
  }

  lemma OnlyOneSession(w: Window, h: map<string, seq<Event>>, session: string, event: Event, limit: nat, s: string)
    requires Append(w, session, event, limit).Some?
    ensures var g, x := h[session := History(h, session) + [event]], Append(w, session, event, limit).value.window;
            && |History(g, session)| == |History(h, session)| + 1
            && (s != session ==> History(g, s) == History(h, s) && SessionOf(x, s) == SessionOf(w, s))
  {
  }

  /** Over every run under one limit, what is retained of each session is exactly its newest events, up to the limit. */
  lemma {:induction false} NewestAreRetained(w: Window, h: map<string, seq<Event>>, ops: seq<WindowOp>, limit: nat)
    requires Describes(w, h) && limit >= 1 && NewestRetained(w, h, limit) && LimitsAre(ops, limit)
    ensures NewestRetained(RunOps(w, ops), RecordOps(w, h, ops), limit)
    decreases |ops|
  {
    if ops != [] {
      var op := ops[0];
      OpKeeps(w, h, op);
      OpRetains(w, h, op, limit);
      NewestAreRetained(ApplyOp(w, op), Record(w, h, op), ops[1..], limit);
    }
  }
}

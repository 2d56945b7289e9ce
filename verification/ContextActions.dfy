/**
 Context-source actions with undo: the live undo stack, the log of action receipts, and the
 replay of that log which decides the protected sources.
 */
module ContextActions {
  import opened Base

  datatype Kind = KPin | KUnpin | KInclude | KForget | KHoldBack
  datatype Action = Pin | Unpin | HoldBack | Include | Preview | Refresh | Compare | Undo

  // included decides whether an undo took; the other fields of a source's state are one value.
  datatype SourceState = SourceState(included: bool, rest: int)

  datatype UndoEntry = UndoEntry(action: Action, sourceId: string, before: SourceState, after: SourceState)
  datatype Receipt = Receipt(id: nat, action: Action, sourceId: string, succeeded: bool, canUndo: bool,
                             before: SourceState, after: SourceState)

  datatype Protection = Protection(sourceId: string, protects: bool)

  function Normalize(kind: Kind): Action {
    match kind
    case KPin => Pin
    case KUnpin => Unpin
    case KInclude => Include
    case KForget => HoldBack
    case KHoldBack => HoldBack
  }

  // ---- replaying the receipt log -------------------------------------------------------

  function RemoveLast(events: seq<Protection>, sourceId: string): seq<Protection> {
    if events == [] then []
    else if events[|events| - 1].sourceId == sourceId then events[..|events| - 1]
    else RemoveLast(events[..|events| - 1], sourceId) + [events[|events| - 1]]
  }

  function Replayed(events: seq<Protection>, receipt: Receipt): seq<Protection> {
    match receipt.action
    case Pin => events + [Protection(receipt.sourceId, true)]
    case Include => events + [Protection(receipt.sourceId, true)]
    case Unpin => events + [Protection(receipt.sourceId, false)]
    case HoldBack => events + [Protection(receipt.sourceId, false)]
    case Undo => RemoveLast(events, receipt.sourceId)
    case _ => events
  }

  function Replay(receipts: seq<Receipt>): seq<Protection> {
    if receipts == [] then []
    else Replayed(Replay(receipts[..|receipts| - 1]), receipts[|receipts| - 1])
  }

  function ProtectedBy(events: seq<Protection>): set<string> {
    if events == [] then {}
    else
      var last := events[|events| - 1];
      var before := ProtectedBy(events[..|events| - 1]);
      if last.protects then before + {last.sourceId} else before - {last.sourceId}
  }

  // Event i is the newest about the source and protects it.
  predicate NewestAt(events: seq<Protection>, sourceId: string, i: nat) {
    i < |events| && events[i] == Protection(sourceId, true) && forall j :: i < j < |events| ==> events[j].sourceId != sourceId
  }

  // The newest event about the source protects it.
  predicate NewestProtects(events: seq<Protection>, sourceId: string) {
    exists i :: 0 <= i < |events| && NewestAt(events, sourceId, i)
  }

  lemma {:induction false} ProtectedByNewest(events: seq<Protection>, sourceId: string)
    ensures sourceId in ProtectedBy(events) <==> NewestProtects(events, sourceId)
  {
    if events != [] {
      var n := |events| - 1;
      var before := events[..n];
      ProtectedByNewest(before, sourceId);
      if events[n].sourceId == sourceId {
        if events[n].protects { assert NewestAt(events, sourceId, n); }
      } else {
        OtherEvent(events, sourceId);
      }
    }
  }

  lemma OtherEvent(events: seq<Protection>, sourceId: string)
    requires events != [] && events[|events| - 1].sourceId != sourceId
    ensures NewestProtects(events, sourceId) <==> NewestProtects(events[..|events| - 1], sourceId)
  {
    hide NewestAt;
    var before := events[..|events| - 1];
    NewestIsIn(events, sourceId);
    NewestIsIn(before, sourceId);
    if i :| 0 <= i < |events| && NewestAt(events, sourceId, i) { SameNewest(events, sourceId, i); }
    if i :| 0 <= i < |before| && NewestAt(before, sourceId, i) { SameNewest(events, sourceId, i); }
  }

  lemma NewestIsIn(events: seq<Protection>, sourceId: string)
    ensures forall i: nat :: NewestAt(events, sourceId, i) ==> i < |events|
  {
  }

  lemma SameNewest(events: seq<Protection>, sourceId: string, i: nat)
    requires events != [] && events[|events| - 1].sourceId != sourceId
    ensures NewestAt(events, sourceId, i) <==> NewestAt(events[..|events| - 1], sourceId, i)
  {
    var before := events[..|events| - 1];
    assert forall j :: 0 <= j < |before| ==> before[j] == events[j];
  }

  lemma {:induction false} RemoveLastAt(events: seq<Protection>, sourceId: string, k: nat)
    requires k < |events| && events[k].sourceId == sourceId
    requires forall j :: k < j < |events| ==> events[j].sourceId != sourceId
    ensures RemoveLast(events, sourceId) == events[..k] + events[k + 1..]
  {
    var n := |events| - 1;
    if k < n {
      RemoveLastAt(events[..n], sourceId, k);
      assert events[..k] + events[k + 1..] == (events[..n][..k] + events[..n][k + 1..]) + [events[n]];
    } else {
      assert events[..k] + events[k + 1..] == events[..n];
    }
  }

  lemma {:induction false} RemoveLastAbsent(events: seq<Protection>, sourceId: string)
    requires forall j :: 0 <= j < |events| ==> events[j].sourceId != sourceId
    ensures RemoveLast(events, sourceId) == events
  {
    if events != [] {
      RemoveLastAbsent(events[..|events| - 1], sourceId);
      assert events == events[..|events| - 1] + [events[|events| - 1]];
    }
  }

  lemma ProtectedOneMore(events: seq<Protection>, e: nat)
    requires e < |events|
    ensures ProtectedBy(events[..e + 1]) ==
              if events[e].protects then ProtectedBy(events[..e]) + {events[e].sourceId}
              else ProtectedBy(events[..e]) - {events[e].sourceId}
  {
    assert events[..e + 1][..e] == events[..e];
  }

  method DeriveProtectedSourceIds(receipts: seq<Receipt>) returns (protectedIds: set<string>)
    ensures protectedIds == ProtectedBy(Replay(receipts))
    ensures forall id :: id in protectedIds <==> NewestProtects(Replay(receipts), id)
  {
    hide ProtectedBy, NewestProtects, Replay, RemoveLast;
    var events: seq<Protection> := [];
    NoReceipts();
    for r := 0 to |receipts|
      invariant events == Replay(receipts[..r])
    {
      var receipt := receipts[r];
      assert receipts[..r + 1] == receipts[..r] + [receipt];
      ReplayOneMore(receipts[..r], receipt);
      match receipt.action {
        case Pin => events := events + [Protection(receipt.sourceId, true)];
        case Include => events := events + [Protection(receipt.sourceId, true)];
        case Unpin => events := events + [Protection(receipt.sourceId, false)];
        case HoldBack => events := events + [Protection(receipt.sourceId, false)];
        case Undo =>
          var index := |events| - 1;
          while index >= 0 && events[index].sourceId != receipt.sourceId
            invariant -1 <= index < |events|
            invariant forall j :: index < j < |events| ==> events[j].sourceId != receipt.sourceId
          {
            index := index - 1;
          }
          if index >= 0 {
            RemoveLastAt(events, receipt.sourceId, index);
            events := events[..index] + events[index + 1..];
          } else {
            RemoveLastAbsent(events, receipt.sourceId);
          }
        case _ =>
      }
    }
    assert receipts[..|receipts|] == receipts;
    protectedIds := {};
    NoEvents();
    for e := 0 to |events|
      invariant protectedIds == ProtectedBy(events[..e])
    {
      ProtectedOneMore(events, e);
      if events[e].protects {
        protectedIds := protectedIds + {events[e].sourceId};
      } else {
        protectedIds := protectedIds - {events[e].sourceId};
      }
    }
    assert events[..|events|] == events;
    forall id ensures id in protectedIds <==> NewestProtects(Replay(receipts), id) {
      ProtectedByNewest(events, id);
    }
  }

  lemma NoReceipts()
    ensures Replay([]) == []
  {
  }

  lemma NoEvents()
    ensures ProtectedBy([]) == {}
  {
  }

  // ---- the live history ----------------------------------------------------------------

  datatype History = History(undoStack: seq<UndoEntry>, receipts: seq<Receipt>, sequence: nat)

  const NOTHING := History([], [], 0)

  // What the store shows of a source before and after the call; None when it shows nothing.
  datatype Event =
    | MutateCalled(kind: Kind, sourceId: string, before: Option<SourceState>, after: Option<SourceState>)
    | UndoCalled(seenBefore: Option<SourceState>, seenAfter: Option<SourceState>)

  function Mutate(h: History, kind: Kind, sourceId: string, before: Option<SourceState>, after: Option<SourceState>):
    (History, Option<Receipt>)
  {
    if before.None? || after.None? then (h, None)
    else
      var action := Normalize(kind);
      var receipt := Receipt(h.sequence + 1, action, sourceId, true, true, before.value, after.value);
      (History(h.undoStack + [UndoEntry(action, sourceId, before.value, after.value)],
               h.receipts + [receipt], h.sequence + 1),
       Some(receipt))
  }

  predicate UndoTakes(entry: UndoEntry, seenAfter: Option<SourceState>) {
    seenAfter.Some? && seenAfter.value.included == entry.before.included
  }

  function UndoLast(h: History, seenBefore: Option<SourceState>, seenAfter: Option<SourceState>): (History, Option<Receipt>) {
    if h.undoStack == [] then (h, None)
    else
      var n := |h.undoStack| - 1;
      var entry := h.undoStack[n];
      var was := if seenBefore.Some? then seenBefore.value else entry.after;
      if !UndoTakes(entry, seenAfter) then
        (h.(sequence := h.sequence + 1),
         Some(Receipt(h.sequence + 1, Undo, entry.sourceId, false, true, was,
                      if seenAfter.Some? then seenAfter.value else was)))
      else
        var receipt := Receipt(h.sequence + 1, Undo, entry.sourceId, true, n > 0, was, seenAfter.value);
        (History(h.undoStack[..n], h.receipts + [receipt], h.sequence + 1), Some(receipt))
  }

  function Step(h: History, e: Event): History {
    match e
    case MutateCalled(kind, sourceId, before, after) => Mutate(h, kind, sourceId, before, after).0
    case UndoCalled(seenBefore, seenAfter) => UndoLast(h, seenBefore, seenAfter).0
  }

  function After(h: History, run: seq<Event>): History
    decreases |run|
  {
    if run == [] then h else After(Step(h, run[0]), run[1..])
  }

  // ---- the stack and the log agree -----------------------------------------------------

  function Protects(action: Action): bool {
    action == Pin || action == Include
  }

  function StackEvents(stack: seq<UndoEntry>): seq<Protection> {
    seq(|stack|, i requires 0 <= i < |stack| => Protection(stack[i].sourceId, Protects(stack[i].action)))
  }

  predicate Agrees(h: History) {
    && Replay(h.receipts) == StackEvents(h.undoStack)
    && (forall i :: 0 <= i < |h.undoStack| ==> h.undoStack[i].action in {Pin, Unpin, Include, HoldBack})
    && NumbersAscend(h.receipts, h.sequence)
  }

  predicate NumbersAscend(receipts: seq<Receipt>, sequence: nat) {
    && (forall i :: 0 <= i < |receipts| ==> receipts[i].succeeded && receipts[i].id <= sequence)
    && (forall i, j :: 0 <= i < j < |receipts| ==> receipts[i].id < receipts[j].id)
  }

  lemma StepAgrees(h: History, e: Event)
    requires Agrees(h)
    ensures Agrees(Step(h, e))
  {
    hide *;
    StepIs(h, e);
    match e
    case MutateCalled(kind, sourceId, before, after) => MutateAgrees(h, kind, sourceId, before, after);
    case UndoCalled(seenBefore, seenAfter) => UndoAgrees(h, seenBefore, seenAfter);
  }

  lemma StepIs(h: History, e: Event)
    ensures match e
      case MutateCalled(kind, sourceId, before, after) => Step(h, e) == Mutate(h, kind, sourceId, before, after).0
      case UndoCalled(seenBefore, seenAfter) => Step(h, e) == UndoLast(h, seenBefore, seenAfter).0
  {
  }

  lemma ReplayOneMore(receipts: seq<Receipt>, receipt: Receipt)
    ensures Replay(receipts + [receipt]) == Replayed(Replay(receipts), receipt)
  {
    assert (receipts + [receipt])[..|receipts|] == receipts;
  }

  lemma NextNumber(receipts: seq<Receipt>, sequence: nat, receipt: Receipt)
    requires NumbersAscend(receipts, sequence) && receipt.succeeded && receipt.id == sequence + 1
    ensures NumbersAscend(receipts + [receipt], sequence + 1)
  {
  }

  lemma EventsOneMore(stack: seq<UndoEntry>, entry: UndoEntry)
    ensures StackEvents(stack + [entry]) == StackEvents(stack) + [Protection(entry.sourceId, Protects(entry.action))]
  {
  }

  lemma MutateAgrees(h: History, kind: Kind, sourceId: string, before: Option<SourceState>, after: Option<SourceState>)
    requires Agrees(h)
    ensures Agrees(Mutate(h, kind, sourceId, before, after).0)
  {
    hide Replay, StackEvents, NumbersAscend;
    var (h1, receipt) := Mutate(h, kind, sourceId, before, after);
    if receipt.Some? {
      ReplayOneMore(h.receipts, receipt.value);
      NextNumber(h.receipts, h.sequence, receipt.value);
      EventsOneMore(h.undoStack, UndoEntry(Normalize(kind), sourceId, before.value, after.value));
    }
  }

  lemma UndoAgrees(h: History, seenBefore: Option<SourceState>, seenAfter: Option<SourceState>)
    requires Agrees(h)
    ensures Agrees(UndoLast(h, seenBefore, seenAfter).0)
  {
    hide Replay, StackEvents, RemoveLast, NumbersAscend;
    var (h1, receipt) := UndoLast(h, seenBefore, seenAfter);
    SameNumbers(h.receipts, h.sequence);
    if h1.undoStack != h.undoStack {
      var n := |h.undoStack| - 1;
      assert h.undoStack == h1.undoStack + [h.undoStack[n]];
      EventsOneMore(h1.undoStack, h.undoStack[n]);
      ReplayOneMore(h.receipts, receipt.value);
      NextNumber(h.receipts, h.sequence, receipt.value);
      NewestRemoved(StackEvents(h1.undoStack), Protection(receipt.value.sourceId, Protects(h.undoStack[n].action)));
    }
  }

  lemma SameNumbers(receipts: seq<Receipt>, sequence: nat)
    requires NumbersAscend(receipts, sequence)
    ensures NumbersAscend(receipts, sequence + 1)
  {
  }

  lemma NewestRemoved(events: seq<Protection>, newest: Protection)
    ensures RemoveLast(events + [newest], newest.sourceId) == events
  {
    assert (events + [newest])[..|events|] == events;
  }

  lemma {:induction false} RunsAgree(h: History, run: seq<Event>)
    requires Agrees(h)
    ensures Agrees(After(h, run))
    decreases |run|
  {
    if run != [] {
      StepAgrees(h, run[0]);
      RunsAgree(Step(h, run[0]), run[1..]);
    }
  }

  // ---- main results --------------------------------------------------------------------

  // The last stack entry about a source pinned or included it.
  predicate TopProtects(stack: seq<UndoEntry>, sourceId: string) {
    exists i :: 0 <= i < |stack| && stack[i].sourceId == sourceId && Protects(stack[i].action)
      && forall j :: i < j < |stack| ==> stack[j].sourceId != sourceId
  }

  lemma NewestOfStack(stack: seq<UndoEntry>, sourceId: string)
    ensures NewestProtects(StackEvents(stack), sourceId) <==> TopProtects(stack, sourceId)
  {
    var events := StackEvents(stack);
    if TopProtects(stack, sourceId) {
      var i :| 0 <= i < |stack| && stack[i].sourceId == sourceId && Protects(stack[i].action)
        && forall j :: i < j < |stack| ==> stack[j].sourceId != sourceId;
      assert NewestAt(events, sourceId, i);
    }
    if NewestProtects(events, sourceId) {
      var i :| 0 <= i < |events| && NewestAt(events, sourceId, i);
      assert stack[i].sourceId == sourceId && Protects(stack[i].action);
      assert forall j :: i < j < |stack| ==> events[j].sourceId == stack[j].sourceId;
    }
  }

  // After any mix of actions, undos and failures, replaying the log gives the live undo stack
  // entry for entry, and a source is protected exactly when its last live action says so.
  lemma ReplayMatchesStack(run: seq<Event>)
    ensures var h := After(NOTHING, run);
            && |Replay(h.receipts)| == |h.undoStack|
            && (forall i :: 0 <= i < |h.undoStack| ==>
                  Replay(h.receipts)[i] == Protection(h.undoStack[i].sourceId, Protects(h.undoStack[i].action)))
            && (forall id :: id in ProtectedBy(Replay(h.receipts)) <==> TopProtects(h.undoStack, id))
  {
    RunsAgree(NOTHING, run);
    var h := After(NOTHING, run);
    forall id ensures id in ProtectedBy(Replay(h.receipts)) <==> TopProtects(h.undoStack, id) {
      ProtectedByNewest(StackEvents(h.undoStack), id);
      NewestOfStack(h.undoStack, id);
    }
  }

  // What a call reports: a receipt, or nothing.
  function Reported(h: History, e: Event): seq<Receipt> {
    var receipt := match e
      case MutateCalled(kind, sourceId, before, after) => Mutate(h, kind, sourceId, before, after).1
      case UndoCalled(seenBefore, seenAfter) => UndoLast(h, seenBefore, seenAfter).1;
    if receipt.Some? then [receipt.value] else []
  }

  function Reports(h: History, run: seq<Event>): seq<Receipt>
    decreases |run|
  {
    if run == [] then [] else Reported(h, run[0]) + Reports(Step(h, run[0]), run[1..])
  }

  function Succeeded(receipts: seq<Receipt>): seq<Receipt> {
    if receipts == [] then []
    else (if receipts[0].succeeded then [receipts[0]] else []) + Succeeded(receipts[1..])
  }

  lemma OneReport(h: History, e: Event)
    ensures Reported(h, e) == [] ==> Step(h, e) == h
    ensures Reported(h, e) != [] ==>
              && |Reported(h, e)| == 1 && Reported(h, e)[0].id == h.sequence + 1 == Step(h, e).sequence
              && Step(h, e).receipts == h.receipts + (if Reported(h, e)[0].succeeded then Reported(h, e) else [])
  {
  }

  predicate NumberedFrom(reports: seq<Receipt>, sequence: nat) {
    forall k :: 0 <= k < |reports| ==> reports[k].id == sequence + 1 + k
  }

  lemma {:induction false} ReportsAreNumbered(h: History, run: seq<Event>)
    ensures After(h, run).sequence == h.sequence + |Reports(h, run)|
    ensures NumberedFrom(Reports(h, run), h.sequence)
    ensures After(h, run).receipts == h.receipts + Succeeded(Reports(h, run))
    decreases |run|
  {
    hide *;
    if run == [] {
      NoReports(h);
    } else {
      var first, h1 := Reported(h, run[0]), Step(h, run[0]);
      var more := Reports(h1, run[1..]);
      OneReport(h, run[0]);
      RunOpens(h, run);
      ReportsAreNumbered(h1, run[1..]);
      if first == [] {
        assert first + more == more;
      } else {
        FirstReport(first, more, h.sequence);
        assert h.receipts + (if first[0].succeeded then first else []) + Succeeded(more)
            == h.receipts + ((if first[0].succeeded then first else []) + Succeeded(more));
      }
    }
  }

  lemma NoReports(h: History)
    ensures After(h, []) == h && Reports(h, []) == [] && Succeeded([]) == [] && NumberedFrom([], h.sequence)
  {
  }

  lemma RunOpens(h: History, run: seq<Event>)
    requires run != []
    ensures After(h, run) == After(Step(h, run[0]), run[1..])
    ensures Reports(h, run) == Reported(h, run[0]) + Reports(Step(h, run[0]), run[1..])
  {
  }

  lemma FirstReport(first: seq<Receipt>, more: seq<Receipt>, sequence: nat)
    requires |first| == 1 && first[0].id == sequence + 1
    ensures NumberedFrom(more, sequence + 1) ==> NumberedFrom(first + more, sequence)
    ensures Succeeded(first + more) == (if first[0].succeeded then first else []) + Succeeded(more)
  {
    assert (first + more)[1..] == more;
  }

  // The receipts reported over a run, failed undos included, are numbered 1, 2, 3 and so on, and
  // the log keeps exactly those that succeeded.
  lemma ReceiptIdsAreUnique(run: seq<Event>)
    ensures var reports, h := Reports(NOTHING, run), After(NOTHING, run);
            && h.sequence == |reports|
            && NumberedFrom(reports, 0)
            && h.receipts == Succeeded(reports)
            && NumbersAscend(h.receipts, h.sequence)
  {
    hide *;
    NothingAgrees();
    RunsAgree(NOTHING, run);
    ReportsAreNumbered(NOTHING, run);
    NumbersAre(After(NOTHING, run));
    assert [] + Succeeded(Reports(NOTHING, run)) == Succeeded(Reports(NOTHING, run));
  }

  // The run never undoes below the given height.
  predicate StaysAbove(h: History, run: seq<Event>, height: nat)
    decreases |run|
  {
    |h.undoStack| >= height && (run != [] ==> StaysAbove(Step(h, run[0]), run[1..], height))
  }

  lemma {:induction false} PrefixIsKept(h: History, run: seq<Event>, height: nat)
    requires StaysAbove(h, run, height)
    ensures |After(h, run).undoStack| >= height
    ensures After(h, run).undoStack[..height] == h.undoStack[..height]
    decreases |run|
  {
    if run != [] {
      PrefixIsKept(Step(h, run[0]), run[1..], height);
      assert Step(h, run[0]).undoStack[..height] == h.undoStack[..height];
    }
  }

  // Actions followed by their undos leave the protected set as it was, whatever happened to
  // this and other sources in between and however many undos failed.
  lemma UndoneActionsLeaveNoTrace(earlier: seq<Event>, run: seq<Event>)
    requires var h := After(NOTHING, earlier);
             StaysAbove(h, run, |h.undoStack|) && |After(h, run).undoStack| == |h.undoStack|
    ensures var h := After(NOTHING, earlier);
            ProtectedBy(Replay(After(h, run).receipts)) == ProtectedBy(Replay(h.receipts))
  {
    var h := After(NOTHING, earlier);
    RunsAgree(NOTHING, earlier);
    RunsAgree(h, run);
    PrefixIsKept(h, run, |h.undoStack|);
    assert After(h, run).undoStack[..|h.undoStack|] == After(h, run).undoStack;
    assert h.undoStack[..|h.undoStack|] == h.undoStack;
  }

  // One action on a source and its undo, with work on other things that is itself undone between.
  lemma ActionThenUndo(earlier: seq<Event>, action: Event, between: seq<Event>, undo: Event)
    requires action.MutateCalled? && action.before.Some? && action.after.Some?
    requires var h1 := Step(After(NOTHING, earlier), action);
             && StaysAbove(h1, between, |h1.undoStack|)
             && |After(h1, between).undoStack| == |h1.undoStack|
             && undo.UndoCalled? && UndoTakes(h1.undoStack[|h1.undoStack| - 1], undo.seenAfter)
    ensures var h := After(NOTHING, earlier);
            var h3 := Step(After(Step(h, action), between), undo);
            && h3.undoStack == h.undoStack
            && ProtectedBy(Replay(h3.receipts)) == ProtectedBy(Replay(h.receipts))
  {
    hide *;
    var h := After(NOTHING, earlier);
    var h1 := Step(h, action);
    var h2 := After(h1, between);
    NothingAgrees();
    RunsAgree(NOTHING, earlier);
    StepAgrees(h, action);
    RunsAgree(h1, between);
    StepAgrees(h2, undo);
    PrefixIsKept(h1, between, |h1.undoStack|);
    assert h2.undoStack[..|h1.undoStack|] == h2.undoStack;
    assert h1.undoStack[..|h1.undoStack|] == h1.undoStack;
    ActionPushes(h, action);
    UndoPops(h2, undo);
    SameStack(h, Step(h2, undo));
  }

  // What an action is called in the receipts.
  predicate Names(kind: Kind, action: Action) {
    || (kind == KPin && action == Pin) || (kind == KUnpin && action == Unpin) || (kind == KInclude && action == Include)
    || ((kind == KForget || kind == KHoldBack) && action == HoldBack)
  }

  /**
   After any run, an action takes exactly when the store shows the source before and after it.
   It then puts the one entry on the stack that tells how to undo it, and the source is protected
   exactly if it was pinned or included; every other source stays as it was.
   */
  lemma ActionIsExact(earlier: seq<Event>, e: Event)
    requires e.MutateCalled?
    ensures var h := After(NOTHING, earlier);
            var h1 := Step(h, e);
            && (e.before.None? || e.after.None? ==> h1 == h && Reported(h, e) == [])
            && (e.before.Some? && e.after.Some? ==>
                  && |h1.undoStack| == |h.undoStack| + 1 && h1.undoStack[..|h.undoStack|] == h.undoStack
                  && (var top := h1.undoStack[|h.undoStack|];
                      && top.sourceId == e.sourceId && top.before == e.before.value && top.after == e.after.value
                      && Names(e.kind, top.action)
                      && Reported(h, e) == [Receipt(h.sequence + 1, top.action, e.sourceId, true, true, e.before.value, e.after.value)])
                  && (forall id :: id in ProtectedBy(Replay(h1.receipts)) <==>
                        if id == e.sourceId then e.kind == KPin || e.kind == KInclude
                        else id in ProtectedBy(Replay(h.receipts))))
  {
    hide *;
    var h := After(NOTHING, earlier);
    var h1 := Step(h, e);
    NothingAgrees();
    RunsAgree(NOTHING, earlier);
    ActionIs(h, e);
    if e.before.Some? && e.after.Some? { NewestDecides(Replay(h.receipts), e.sourceId, e.kind == KPin || e.kind == KInclude); }
  }

  lemma ActionIs(h: History, e: Event)
    requires e.MutateCalled?
    ensures e.before.None? || e.after.None? ==> Step(h, e) == h && Reported(h, e) == []
    ensures e.before.Some? && e.after.Some? ==>
              var action := Normalize(e.kind);
              && Names(e.kind, action)
              && Step(h, e).undoStack == h.undoStack + [UndoEntry(action, e.sourceId, e.before.value, e.after.value)]
              && Reported(h, e) == [Receipt(h.sequence + 1, action, e.sourceId, true, true, e.before.value, e.after.value)]
              && Replay(Step(h, e).receipts) ==
                   Replay(h.receipts) + [Protection(e.sourceId, e.kind == KPin || e.kind == KInclude)]
  {
    if e.before.Some? && e.after.Some? {
      ReplayOneMore(h.receipts, Receipt(h.sequence + 1, Normalize(e.kind), e.sourceId, true, true, e.before.value, e.after.value));
    }
  }

  lemma NewestDecides(events: seq<Protection>, sourceId: string, protects: bool)
    ensures forall id :: id in ProtectedBy(events + [Protection(sourceId, protects)]) <==>
              if id == sourceId then protects else id in ProtectedBy(events)
  {
    assert (events + [Protection(sourceId, protects)])[..|events|] == events;
  }

  /**
   After any run, an undo takes the newest entry off the stack exactly when the store then shows
   the source included as it was before that action. Otherwise stack and log stay as they are;
   with an empty stack nothing is reported, else a failed receipt. A receipt says that another
   undo is possible exactly when an entry is left.
   */
  lemma UndoIsExact(earlier: seq<Event>, e: Event)
    requires e.UndoCalled?
    ensures var h := After(NOTHING, earlier);
            var h1 := Step(h, e);
            && (h.undoStack == [] ==> h1 == h && Reported(h, e) == [])
            && (h.undoStack != [] ==>
                  var top := h.undoStack[|h.undoStack| - 1];
                  var taken := e.seenAfter.Some? && e.seenAfter.value.included == top.before.included;
                  && h1.undoStack == (if taken then h.undoStack[..|h.undoStack| - 1] else h.undoStack)
                  && (!taken ==> h1.receipts == h.receipts)
                  && |Reported(h, e)| == 1
                  && (var receipt := Reported(h, e)[0];
                      && receipt.action == Undo && receipt.sourceId == top.sourceId
                      && receipt.succeeded == taken && (receipt.canUndo <==> h1.undoStack != [])
                      && (e.seenBefore.Some? ==> receipt.before == e.seenBefore.value)
                      && (e.seenBefore.None? ==> receipt.before == top.after)
                      && (e.seenAfter.Some? ==> receipt.after == e.seenAfter.value)
                      && (e.seenAfter.None? ==> receipt.after == receipt.before)))
            && (forall id :: id in ProtectedBy(Replay(h1.receipts)) <==> TopProtects(h1.undoStack, id))
  {
    ReplayMatchesStack(earlier + [e]);
    OneMoreCall(NOTHING, earlier, e);
  }

  lemma {:induction false} OneMoreCall(h: History, run: seq<Event>, e: Event)
    ensures After(h, run + [e]) == Step(After(h, run), e)
    decreases |run|
  {
    if run == [] {
      assert (run + [e])[1..] == [];
    } else {
      assert (run + [e])[1..] == run[1..] + [e];
      OneMoreCall(Step(h, run[0]), run[1..], e);
    }
  }

  lemma NothingAgrees()
    ensures Agrees(NOTHING) && NOTHING.receipts == [] && NOTHING.sequence == 0
  {
  }

  lemma NumbersAre(h: History)
    requires Agrees(h)
    ensures NumbersAscend(h.receipts, h.sequence)
  {
  }

  lemma ActionPushes(h: History, action: Event)
    requires action.MutateCalled? && action.before.Some? && action.after.Some?
    ensures |Step(h, action).undoStack| == |h.undoStack| + 1
    ensures Step(h, action).undoStack[..|h.undoStack|] == h.undoStack
  {
  }

  lemma UndoPops(h: History, undo: Event)
    requires undo.UndoCalled? && h.undoStack != []
    requires UndoTakes(h.undoStack[|h.undoStack| - 1], undo.seenAfter)
    ensures Step(h, undo).undoStack == h.undoStack[..|h.undoStack| - 1]
  {
  }

  lemma SameStack(h: History, h1: History)
    requires Agrees(h) && Agrees(h1) && h.undoStack == h1.undoStack
    ensures ProtectedBy(Replay(h1.receipts)) == ProtectedBy(Replay(h.receipts))
  {
  }

  // ---- the closures' variables as an object --------------------------------------------

  class ContextSourceActions {
    var undoStack: seq<UndoEntry>
    var actionReceipts: seq<Receipt>
    var receiptSequence: nat

    ghost function State(): History
      reads this
    {
      History(undoStack, actionReceipts, receiptSequence)
    }

    constructor ()
      ensures State() == NOTHING && Agrees(State())
    {
      undoStack, actionReceipts, receiptSequence := [], [], 0;
    }

    method MutateContextSource(kind: Kind, sourceId: string, before: Option<SourceState>, after: Option<SourceState>)
      returns (receipt: Option<Receipt>)
      requires Agrees(State())
      modifies this
      ensures (State(), receipt) == Mutate(old(State()), kind, sourceId, before, after)
      ensures Agrees(State())
    {
      StepAgrees(State(), MutateCalled(kind, sourceId, before, after));
      if before.None? { return None; }
      var action := Normalize(kind);
      if after.None? { return None; }
      undoStack := undoStack + [UndoEntry(action, sourceId, before.value, after.value)];
      receiptSequence := receiptSequence + 1;
      receipt := Some(Receipt(receiptSequence, action, sourceId, true, true, before.value, after.value));
      actionReceipts := actionReceipts + [receipt.value];
    }

    method UndoLastContextSourceAction(seenBefore: Option<SourceState>, seenAfter: Option<SourceState>)
      returns (receipt: Option<Receipt>)
      requires Agrees(State())
      modifies this
      ensures (State(), receipt) == UndoLast(old(State()), seenBefore, seenAfter)
      ensures Agrees(State())
    {
      hide Agrees, Step, Replay;
      ghost var was := State();
      StepAgrees(was, UndoCalled(seenBefore, seenAfter));
      StepIs(was, UndoCalled(seenBefore, seenAfter));
      if undoStack == [] { return None; }
      var entry := undoStack[|undoStack| - 1];
      var beforeUndo := if seenBefore.Some? then seenBefore.value else entry.after;
      if seenAfter.None? || seenAfter.value.included != entry.before.included {
        receiptSequence := receiptSequence + 1;
        return Some(Receipt(receiptSequence, Undo, entry.sourceId, false, |undoStack| > 0, beforeUndo,
                            if seenAfter.Some? then seenAfter.value else beforeUndo));
      }
      undoStack := undoStack[..|undoStack| - 1];
      receiptSequence := receiptSequence + 1;
      receipt := Some(Receipt(receiptSequence, Undo, entry.sourceId, true, |undoStack| > 0, beforeUndo, seenAfter.value));
      actionReceipts := actionReceipts + [receipt.value];
    }

    method ProtectedSourceIds() returns (ids: set<string>)
      requires Agrees(State())
      ensures forall id :: id in ids <==> TopProtects(undoStack, id)
    {
      ids := DeriveProtectedSourceIds(actionReceipts);
      forall id ensures id in ids <==> TopProtects(undoStack, id) {
        NewestOfStack(undoStack, id);
      }
    }
  }
}

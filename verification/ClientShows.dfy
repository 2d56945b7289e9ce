/** Exactly which responses the client shows, and what it does after each answer. */
module ClientShows {
  import opened Base
  import opened ClientFence

  // ---- which responses are shown -------------------------------------------------------

  // The counters are those of responses that were shown; requests are numbered from 1.
  ghost predicate Tight(w: World, first: nat) {
    && first <= w.client.revision
    && (w.client.revision == first || exists i :: 0 <= i < |w.log| && w.log[i].revision == w.client.revision)
    && (w.client.accepted == 0 || exists i :: 0 <= i < |w.log| && w.log[i].request == w.client.accepted)
    && (w.client.floor == 0 || exists i :: 0 <= i < |w.log| && w.log[i].caller.Some? && w.log[i].sequence + 1 == w.client.floor)
    && 0 !in w.polls
    && (forall k :: 0 <= k < |w.invocations| ==> Positive(w.invocations[k].phase))
  }

  predicate Positive(p: Phase) {
    p.Waiting? || p.Refreshing? || p.Confirming? ==> p.request > 0
  }

  /** A read of that number and revision is news: no shown response is of a later revision, and either all are of earlier
      ones or the read was issued after every shown request and after every shown mutation response had arrived. */
  ghost predicate IsNews(log: seq<Entry>, first: nat, revision: nat, request: nat) {
    && first <= revision && (forall i :: 0 <= i < |log| ==> log[i].revision <= revision)
    && ((first < revision && forall i :: 0 <= i < |log| ==> log[i].revision < revision)
        || forall i :: 0 <= i < |log| ==> log[i].request < request && (log[i].caller.Some? ==> log[i].sequence < request))
  }

  lemma NewsIsNotFenced(w: World, state: string, first: nat, revision: nat, request: nat)
    requires Inv(w, state) && Tight(w, first) && request > 0
    ensures Fenced(w.client, revision, request, Read) <==> !IsNews(w.log, first, revision, request)
  {
  }

  lemma SendTight(w: World, id: nat, inv: Invocation, first: nat)
    requires Tight(w, first) && id <= |w.invocations|
    ensures Tight(Send(w, id, inv), first)
  {
  }

  lemma SettleTight(w: World, id: nat, phase: Phase, first: nat)
    requires Tight(w, first) && id < |w.invocations| && Positive(phase)
    ensures Tight(Settle(w, id, phase), first)
  {
  }

  lemma IssueTight(w: World, first: nat)
    requires Tight(w, first)
    ensures Tight(w.(client := Issue(w.client)), first)
  {
  }

  lemma EntryTight(w: World, w1: World, e: Entry, first: nat)
    requires Tight(w, first) && w1.log == w.log + [e] && w1.polls == w.polls && w1.invocations == w.invocations
    requires w.client.revision <= e.revision == w1.client.revision
    requires w1.client.accepted == w.client.accepted || w1.client.accepted == e.request
    requires w1.client.floor == w.client.floor || (e.caller.Some? && w1.client.floor == e.sequence + 1)
    ensures Tight(w1, first)
  {
    assert w1.log[|w.log|] == e;
    assert forall i :: 0 <= i < |w.log| ==> w1.log[i] == w.log[i];
  }

  lemma OfferTight(w: World, request: nat, snapshot: Snapshot, first: nat)
    requires Tight(w, first)
    ensures Tight(Offer(w, request, snapshot), first)
  {
    hide Tight;
    var w1 := Offer(w, request, snapshot);
    if w1 != w {
      EntryTight(w, w1, Entry(None, request, snapshot.revision, w.client.sequence, Some(snapshot.state)), first);
    }
  }

  lemma ReplacedTight(w: World, id: nat, request: nat, revision: nat, next: string, first: nat)
    requires Tight(w, first)
    ensures Tight(Replaced(w, id, request, revision, next), first) && Replaced(w, id, request, revision, next).invocations == w.invocations
  {
    hide Tight;
    var w1 := Replaced(w, id, request, revision, next);
    if w1 != w { EntryTight(w, w1, Entry(Some(id), request, revision, w.client.sequence, Some(next)), first); }
  }

  lemma ReceiptedTight(w: World, id: nat, request: nat, revision: nat, first: nat)
    requires Tight(w, first)
    ensures Tight(Receipted(w, id, request, revision), first) && Receipted(w, id, request, revision).invocations == w.invocations
  {
    hide Tight;
    var fenced := Fence(w.client, revision, request);
    EntryTight(w, Receipted(w, id, request, revision), Entry(Some(id), request, fenced.revision, w.client.sequence, None), first);
  }

  lemma AcceptTight(w: World, id: nat, request: nat, revision: nat, state: Option<string>, first: nat)
    requires Tight(w, first) && id < |w.invocations|
    ensures Tight(Accept(w, id, request, revision, state), first)
  {
    hide *;
    var next := if state.Some? then state.value else "";
    ReplacedTight(w, id, request, revision, next, first);
    ReceiptedTight(w, id, request, revision, first);
    AcceptIs(w, id, request, revision, state);
    EndsPositive(w.client.sequence + 1);
    match state
    case Some(_) => SettleTight(Replaced(w, id, request, revision, next), id, Returned, first);
    case None => SettleTight(Receipted(w, id, request, revision), id, Confirming(w.client.sequence + 1), first);
  }

  lemma EndsPositive(request: nat)
    requires request > 0
    ensures Positive(Returned) && Positive(Thrown) && Positive(Confirming(request)) && Positive(Refreshing(request))
  {
  }

  lemma ReceiveTight(w: World, id: nat, answer: Answer, first: nat)
    requires Tight(w, first) && id < |w.invocations| && w.invocations[id].phase.Waiting?
    ensures Tight(Receive(w, id, answer), first)
  {
    hide *;
    ReceiveIs(w, id, answer);
    EndsPositive(w.client.sequence + 1);
    var inv := w.invocations[id];
    SettleTight(w, id, Thrown, first);
    SendTight(w, id, inv.(replay := inv.replay + 1), first);
    IssueTight(w, first);
    SettleTight(w.(client := Issue(w.client)), id, Refreshing(w.client.sequence + 1), first);
    match answer
    case Accepted(revision, state) => AcceptTight(w, id, inv.phase.request, revision, state, first);
    case _ =>
  }

  lemma RefreshTight(w: World, id: nat, snapshot: Snapshot, first: nat)
    requires Tight(w, first) && CanHappen(w, Refreshed(id, snapshot))
    ensures Tight(Refresh(w, id, snapshot), first)
  {
    hide *;
    RefreshingIs(w, id, snapshot);
    RefreshIs(w, id, snapshot);
    EndsPositive(1);
    var inv := w.invocations[id];
    var w1 := Offer(w, inv.phase.request, snapshot);
    OfferTight(w, inv.phase.request, snapshot, first);
    SettleTight(w1, id, Returned, first);
    SettleTight(w1, id, Thrown, first);
    SendTight(w1, id, inv.(attempt := inv.attempt + 1, replay := 0, expected := w1.client.revision), first);
  }

  lemma RefreshingIs(w: World, id: nat, snapshot: Snapshot)
    requires CanHappen(w, Refreshed(id, snapshot))
    ensures id < |w.invocations| && (w.invocations[id].phase.Refreshing? || w.invocations[id].phase.Confirming?)
  {
  }

  lemma StepTight(w: World, e: Event, first: nat)
    requires Tight(w, first) && CanHappen(w, e)
    ensures Tight(Step(w, e), first)
  {
    match e
    case ReadIssued =>
    case ReadArrived(request, snapshot) => OfferTight(w.(polls := w.polls - {request}), request, snapshot, first);
    case Invoked(conflictRetry, transportRetry) =>
      SendTight(w, |w.invocations|, Invocation(conflictRetry, transportRetry, w.client.revision, 0, 0, Thrown), first);
    case Answered(id, answer) => ReceiveTight(w, id, answer, first);
    case Refreshed(id, snapshot) => RefreshTight(w, id, snapshot, first);
  }

  lemma {:induction false} RunsTight(w: World, run: seq<Event>, first: nat)
    requires Tight(w, first) && Legal(w, run)
    ensures Tight(After(w, run), first)
    decreases |run|
  {
    if run != [] {
      StepTight(w, run[0], first);
      RunsTight(Step(w, run[0]), run[1..], first);
    }
  }

  lemma Reached(state: string, first: nat, run: seq<Event>)
    requires Legal(Begin(state, first), run)
    ensures Inv(After(Begin(state, first), run), state) && Tight(After(Begin(state, first), run), first)
  {
    RunsKeepInv(Begin(state, first), run, state);
    RunsTight(Begin(state, first), run, first);
  }

  /**
   In every reachable state a read that arrives with a state is shown exactly when it is news, whether it is a poll or
   the read after a conflict or an acceptance; it is then the state shown, and otherwise nothing of the view changes.
   */
  lemma ReadsAreShownIffNews(state: string, first: nat, run: seq<Event>, request: nat, next: string, revision: nat, id: nat)
    requires Legal(Begin(state, first), run)
    ensures var w := After(Begin(state, first), run);
            var e := ReadArrived(request, Got(next, revision));
            CanHappen(w, e) ==>
              if IsNews(w.log, first, revision, request)
              then Step(w, e).client.state == next && Step(w, e).client.revision == revision
                   && Step(w, e).log == w.log + [Entry(None, request, revision, w.client.sequence, Some(next))]
              else Step(w, e).client == w.client && Step(w, e).log == w.log
    ensures var w := After(Begin(state, first), run);
            var e := Refreshed(id, Got(next, revision));
            CanHappen(w, e) ==>
              var asked := w.invocations[id].phase.request;
              if IsNews(w.log, first, revision, asked)
              then Step(w, e).client.state == next && Step(w, e).client.revision == revision
                   && Step(w, e).log == w.log + [Entry(None, asked, revision, w.client.sequence, Some(next))]
              else Step(w, e).client.state == w.client.state && Step(w, e).client.revision == w.client.revision && Step(w, e).log == w.log
  {
    Reached(state, first, run);
    var w := After(Begin(state, first), run);
    if request in w.polls { NewsIsNotFenced(w, state, first, revision, request); }
    if CanHappen(w, Refreshed(id, Got(next, revision))) {
      assert Positive(w.invocations[id].phase);
      NewsIsNotFenced(w, state, first, revision, w.invocations[id].phase.request);
    }
  }

  /** A mutation response with a state is shown exactly when no shown response is of a later revision. */
  lemma MutationsAreShownIffNotOlder(state: string, first: nat, run: seq<Event>, id: nat, next: string, revision: nat)
    requires Legal(Begin(state, first), run)
    ensures var w := After(Begin(state, first), run);
            var e := Answered(id, Accepted(revision, Some(next)));
            CanHappen(w, e) ==>
              if first <= revision && (forall i :: 0 <= i < |w.log| ==> w.log[i].revision <= revision)
              then Step(w, e).client.state == next && Step(w, e).client.revision == revision && |Step(w, e).log| == |w.log| + 1
              else Step(w, e).client == w.client && Step(w, e).log == w.log
  {
    Reached(state, first, run);
  }

  /**
   In every reachable state listeners are told of a read exactly when it is news and differs from what is shown, and of
   a mutation response exactly when no shown response is of a later revision; what is shown changes only with a notice.
   */
  lemma NoticesAreExact(state: string, first: nat, run: seq<Event>, request: nat, next: string, revision: nat)
    requires Legal(Begin(state, first), run) && request > 0
    ensures var w := After(Begin(state, first), run);
            var (c, read), (d, mutation) := Publish(w.client, next, revision, request, Read), Publish(w.client, next, revision, request, Mutation);
            && (read <==> IsNews(w.log, first, revision, request) && next != w.client.state)
            && (mutation <==> first <= revision && forall i :: 0 <= i < |w.log| ==> w.log[i].revision <= revision)
            && c.state == (if read then next else w.client.state) && d.state == (if mutation then next else w.client.state)
  {
    Reached(state, first, run);
    NewsIsNotFenced(After(Begin(state, first), run), state, first, revision, request);
  }

  // ---- what follows an answer ----------------------------------------------------------

  // While no conflict has been answered, the repeats after transport errors are all there were.
  predicate Counts(inv: Invocation, sends: nat) {
    && (inv.attempt == 0 ==> sends == inv.replay + 1)
    && (inv.attempt > 0 ==> sends >= inv.replay + 2)
  }

  predicate AllCount(w: World) {
    && (forall id :: 0 <= id < |w.invocations| ==> Counts(w.invocations[id], SendsOf(w.sent, id)))
    && (forall k :: 0 <= k < |w.sent| ==> w.sent[k].invocation < |w.invocations|)
  }

  lemma SendCountsOn(w: World, id: nat, inv: Invocation)
    requires AllCount(w) && id <= |w.invocations|
    requires Counts(inv, (if id < |w.invocations| then SendsOf(w.sent, id) else 0) + 1)
    ensures AllCount(Send(w, id, inv))
  {
    var w1 := Send(w, id, inv);
    if id == |w.invocations| { Unsent(w.sent, id); }
    forall k | 0 <= k < |w1.invocations| ensures Counts(w1.invocations[k], SendsOf(w1.sent, k)) {
      OneMore(w.sent, Sent(id, w.client.sequence + 1, inv.expected), k);
      if k != id { assert w1.invocations[k] == w.invocations[k]; }
    }
  }

  lemma QuietCounts(w: World, w1: World)
    requires AllCount(w) && w1.sent == w.sent && |w1.invocations| == |w.invocations|
    requires forall id :: 0 <= id < |w.invocations| ==>
               w1.invocations[id].attempt == w.invocations[id].attempt && w1.invocations[id].replay == w.invocations[id].replay
    ensures AllCount(w1)
  {
  }

  lemma StepCountsOn(w: World, e: Event)
    requires AllCount(w) && CanHappen(w, e)
    ensures AllCount(Step(w, e))
  {
    match e
    case ReadIssued => QuietCounts(w, Step(w, e));
    case ReadArrived(_, _) => QuietCounts(w, Step(w, e));
    case Invoked(conflictRetry, transportRetry) =>
      SendCountsOn(w, |w.invocations|, Invocation(conflictRetry, transportRetry, w.client.revision, 0, 0, Thrown));
    case Answered(id, answer) => ReceiveCountsOn(w, id, answer);
    case Refreshed(id, snapshot) => RefreshCountsOn(w, id, snapshot);
  }

  lemma CountsAt(w: World, id: nat)
    requires AllCount(w) && id < |w.invocations|
    ensures Counts(w.invocations[id], SendsOf(w.sent, id))
  {
  }

  lemma OneMoreTry(inv: Invocation, sends: nat, expected: nat)
    requires Counts(inv, sends)
    ensures Counts(inv.(replay := inv.replay + 1), sends + 1)
    ensures Counts(inv.(attempt := inv.attempt + 1, replay := 0, expected := expected), sends + 1)
  {
  }

  lemma SettleCountsOn(w: World, id: nat, phase: Phase)
    requires AllCount(w) && id < |w.invocations|
    ensures AllCount(Settle(w, id, phase)) && AllCount(Settle(w.(client := Issue(w.client)), id, phase))
  {
    QuietCounts(w, Settle(w, id, phase));
    QuietCounts(w, Settle(w.(client := Issue(w.client)), id, phase));
  }

  lemma AcceptCountsOn(w: World, id: nat, request: nat, revision: nat, state: Option<string>)
    requires AllCount(w) && id < |w.invocations|
    ensures AllCount(Accept(w, id, request, revision, state))
  {
    QuietCounts(w, Accept(w, id, request, revision, state));
  }

  lemma ReceiveCountsOn(w: World, id: nat, answer: Answer)
    requires AllCount(w) && id < |w.invocations| && w.invocations[id].phase.Waiting?
    ensures AllCount(Receive(w, id, answer))
  {
    hide *;
    ReceiveIs(w, id, answer);
    CountsAt(w, id);
    var inv := w.invocations[id];
    SettleCountsOn(w, id, Thrown);
    SettleCountsOn(w, id, Refreshing(w.client.sequence + 1));
    OneMoreTry(inv, SendsOf(w.sent, id), 0);
    SendCountsOn(w, id, inv.(replay := inv.replay + 1));
    match answer
    case Accepted(revision, state) => AcceptCountsOn(w, id, inv.phase.request, revision, state);
    case _ =>
  }

  lemma RefreshCountsOn(w: World, id: nat, snapshot: Snapshot)
    requires AllCount(w) && CanHappen(w, Refreshed(id, snapshot))
    ensures AllCount(Refresh(w, id, snapshot))
  {
    hide *;
    RefreshingIs(w, id, snapshot);
    RefreshIs(w, id, snapshot);
    CountsAt(w, id);
    var inv := w.invocations[id];
    var w1 := Offer(w, inv.phase.request, snapshot);
    OfferSpares(w, inv.phase.request, snapshot);
    QuietCounts(w, w1);
    SettleCountsOn(w1, id, Returned);
    SettleCountsOn(w1, id, Thrown);
    OneMoreTry(inv, SendsOf(w.sent, id), w1.client.revision);
    SendCountsOn(w1, id, inv.(attempt := inv.attempt + 1, replay := 0, expected := w1.client.revision));
  }

  lemma {:induction false} RunsCountOn(w: World, run: seq<Event>)
    requires AllCount(w) && Legal(w, run)
    ensures AllCount(After(w, run))
    decreases |run|
  {
    if run != [] {
      StepCountsOn(w, run[0]);
      RunsCountOn(Step(w, run[0]), run[1..]);
    }
  }

  /**
   In every reachable state: the first request of an invocation that is lost is sent again when its method may be repeated
   after a transport error and nobody aborted it, and one refused for a conflict is followed by a read when its method
   may be repeated after a conflict. Otherwise the invocation throws, as it does on any other refusal.
   */
  lemma FirstFailuresAreFollowed(state: string, first: nat, run: seq<Event>, id: nat, aborted: bool, conflict: bool)
    requires Legal(Begin(state, first), run)
    requires var w := After(Begin(state, first), run);
             id < |w.invocations| && w.invocations[id].phase.Waiting? && SendsOf(w.sent, id) == 1
    ensures var w := After(Begin(state, first), run);
            var inv, w1, w2 := w.invocations[id], Step(w, Answered(id, Lost(aborted))), Step(w, Answered(id, Refused(conflict)));
            && (if !aborted && inv.transportRetry
                then SendsOf(w1.sent, id) == 2 && w1.invocations[id].phase == Waiting(w1.client.sequence)
                else w1.sent == w.sent && w1.invocations[id].phase == Thrown)
            && w2.sent == w.sent
            && w2.invocations[id].phase == (if conflict && inv.conflictRetry then Refreshing(w2.client.sequence) else Thrown)
            && (conflict && inv.conflictRetry ==> w2.client.sequence == w.client.sequence + 1)
  {
    RunsCountOn(Begin(state, first), run);
    var w := After(Begin(state, first), run);
    assert Counts(w.invocations[id], SendsOf(w.sent, id));
    OneMore(w.sent, Sent(id, w.client.sequence + 1, w.invocations[id].expected), id);
  }

  /**
   A read that answers a conflict is followed by the request again unless it could not be made at all; a repeat that
   is lost may be repeated once more, and one that meets a second conflict throws.
   */
  lemma ConflictsAreRetried(w: World, id: nat, snapshot: Snapshot, aborted: bool, conflict: bool)
    requires id < |w.invocations|
    ensures w.invocations[id].phase.Refreshing? ==>
              var w1 := Step(w, Refreshed(id, snapshot));
              if snapshot == Unreachable then w1.sent == w.sent && w1.invocations[id].phase == Thrown
              else |w1.sent| == |w.sent| + 1 && w1.invocations[id].phase == Waiting(w1.client.sequence)
                   && w1.invocations[id].attempt == w.invocations[id].attempt + 1 && w1.invocations[id].replay == 0
    ensures w.invocations[id].phase.Waiting? && w.invocations[id].attempt > 0 ==>
              var inv, w1, w2 := w.invocations[id], Step(w, Answered(id, Lost(aborted))), Step(w, Answered(id, Refused(conflict)));
              && (if !aborted && inv.transportRetry && inv.replay == 0
                  then |w1.sent| == |w.sent| + 1 && w1.invocations[id].phase == Waiting(w1.client.sequence)
                  else w1.sent == w.sent && w1.invocations[id].phase == Thrown)
              && w2.sent == w.sent && w2.invocations[id].phase == Thrown
  {
  }

  // The invocation has been accepted: it has returned, or only waits for the read that shows what it led to.
  predicate IsAccepted(w: World, id: nat) {
    id < |w.invocations| && (w.invocations[id].phase.Returned? || w.invocations[id].phase.Confirming?)
  }

  /** An accepted answer is never turned into a failure: whatever happens to the read that follows, the call returns. */
  lemma {:induction false} AcceptedNeverThrows(w: World, run: seq<Event>, id: nat)
    requires Legal(w, run) && IsAccepted(w, id)
    ensures IsAccepted(After(w, run), id)
    decreases |run|
  {
    if run != [] {
      StaysAccepted(w, run[0], id);
      AcceptedNeverThrows(Step(w, run[0]), run[1..], id);
    }
  }

  lemma StaysAccepted(w: World, e: Event, id: nat)
    requires CanHappen(w, e) && IsAccepted(w, id)
    ensures IsAccepted(Step(w, e), id)
    ensures e.Refreshed? && e.invocation == id ==> Step(w, e).invocations[id].phase == Returned
  {
  }

  /** An accepted answer with a state returns at once; one without issues the read that shows what it led to. */
  lemma AcceptanceIsFollowed(w: World, id: nat, revision: nat, state: Option<string>)
    requires id < |w.invocations| && w.invocations[id].phase.Waiting?
    ensures var w1 := Step(w, Answered(id, Accepted(revision, state)));
            && IsAccepted(w1, id) && w1.sent == w.sent
            && (state.Some? ==> w1.invocations[id].phase == Returned && w1.client.sequence == w.client.sequence)
            && (state.None? ==> w1.invocations[id].phase == Confirming(w1.client.sequence)
                                && w1.client.sequence == w.client.sequence + 1 && w1.client.state == w.client.state
                                && w1.client.revision == (if revision > w.client.revision then revision else w.client.revision))
  {
  }
}

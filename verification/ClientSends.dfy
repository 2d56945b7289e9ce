/** Which revision each request of the client carries, when an invocation is repeated, and how it ends. */
module ClientSends {
  import opened Base
  import opened ClientFence

  // ---- the event behind every request --------------------------------------------------

  // No request of that invocation has been sent.
  predicate NeverSent(sent: seq<Sent>, id: nat) {
    forall k :: 0 <= k < |sent| ==> sent[k].invocation != id
  }

  // Request k is the last one sent so far for its invocation.
  predicate LastSent(sent: seq<Sent>, k: nat) {
    k < |sent| && forall j :: k < j < |sent| ==> sent[j].invocation != sent[k].invocation
  }

  /**
   The event sends s: a first request carries the client's revision at that moment; a repeat after a transport error
   carries the revision of the request it repeats; a repeat after a conflict carries the client's revision right
   after the read that answered the conflict.
   */
  ghost predicate Sends(w: World, e: Event, s: Sent) {
    && CanHappen(w, e) && Step(w, e).sent == w.sent + [s] && s.request > w.client.sequence
    && match e
       case Invoked(_, _) => s.invocation == |w.invocations| && NeverSent(w.sent, s.invocation) && s.expected == w.client.revision
       case Answered(id, answer) =>
         && s.invocation == id && answer == Lost(false)
         && exists k: nat :: LastSent(w.sent, k) && w.sent[k].invocation == id && s.expected == w.sent[k].expected
       case Refreshed(id, snapshot) => s.invocation == id && !NeverSent(w.sent, id) && s.expected == Step(w, e).client.revision
       case _ => false
  }

  ghost predicate SentAlong(w: World, run: seq<Event>, s: Sent)
    requires Legal(w, run)
    decreases |run|
  {
    run != [] && (Sends(w, run[0], s) || SentAlong(Step(w, run[0]), run[1..], s))
  }

  // ---- what the client knows of its invocations ----------------------------------------

  // Invocation id has been sent, last with the revision it expects now, and with the number it waits for.
  ghost predicate Tracked(w: World, id: nat)
    requires id < |w.invocations|
  {
    exists k: nat :: LastSent(w.sent, k) && w.sent[k].invocation == id && w.sent[k].expected == w.invocations[id].expected
                     && (w.invocations[id].phase.Waiting? ==> w.sent[k].request == w.invocations[id].phase.request)
  }

  ghost predicate AllTracked(w: World) {
    && (forall id :: 0 <= id < |w.invocations| ==> Tracked(w, id))
    && (forall k :: 0 <= k < |w.sent| ==> w.sent[k].invocation < |w.invocations|)
  }

  lemma SendTracks(w: World, id: nat, inv: Invocation)
    requires AllTracked(w) && id <= |w.invocations|
    ensures AllTracked(Send(w, id, inv))
  {
    var w1 := Send(w, id, inv);
    forall m | 0 <= m < |w1.invocations| ensures Tracked(w1, m) {
      if m == id {
        assert LastSent(w1.sent, |w.sent|);
      } else {
        assert Tracked(w, m);
        var k: nat :| LastSent(w.sent, k) && w.sent[k].invocation == m && w.sent[k].expected == w.invocations[m].expected
                      && (w.invocations[m].phase.Waiting? ==> w.sent[k].request == w.invocations[m].phase.request);
        assert LastSent(w1.sent, k);
      }
    }
  }

  // Steps that send nothing, change no expected revision and start no waiting.
  lemma QuietTracks(w: World, w1: World)
    requires AllTracked(w) && w1.sent == w.sent && |w1.invocations| == |w.invocations|
    requires forall id :: 0 <= id < |w.invocations| ==>
               && w1.invocations[id].expected == w.invocations[id].expected
               && (w1.invocations[id].phase.Waiting? ==> w1.invocations[id].phase == w.invocations[id].phase)
    ensures AllTracked(w1)
  {
    forall id | 0 <= id < |w1.invocations| ensures Tracked(w1, id) { assert Tracked(w, id); }
  }

  lemma StepTracks(w: World, e: Event)
    requires AllTracked(w) && CanHappen(w, e)
    ensures AllTracked(Step(w, e))
  {
    match e
    case ReadIssued => QuietTracks(w, Step(w, e));
    case ReadArrived(_, _) => QuietTracks(w, Step(w, e));
    case Invoked(conflictRetry, transportRetry) =>
      SendTracks(w, |w.invocations|, Invocation(conflictRetry, transportRetry, w.client.revision, 0, 0, Thrown));
    case Answered(id, answer) => ReceiveTracks(w, id, answer);
    case Refreshed(id, snapshot) => RefreshTracks(w, id, snapshot);
  }

  lemma ReceiveTracks(w: World, id: nat, answer: Answer)
    requires AllTracked(w) && id < |w.invocations| && w.invocations[id].phase.Waiting?
    ensures AllTracked(Receive(w, id, answer))
  {
    hide *;
    ReceiveIs(w, id, answer);
    var inv := w.invocations[id];
    SettleTracks(w, id, Thrown);
    SendTracks(w, id, inv.(replay := inv.replay + 1));
    IssueTracks(w, id);
    match answer
    case Accepted(revision, state) => AcceptTracks(w, id, inv.phase.request, revision, state);
    case _ =>
  }

  lemma SettleTracks(w: World, id: nat, phase: Phase)
    requires AllTracked(w) && id < |w.invocations| && !phase.Waiting?
    ensures AllTracked(Settle(w, id, phase))
  {
    QuietTracks(w, Settle(w, id, phase));
  }

  lemma IssueTracks(w: World, id: nat)
    requires AllTracked(w) && id < |w.invocations|
    ensures AllTracked(Settle(w.(client := Issue(w.client)), id, Refreshing(w.client.sequence + 1)))
  {
    QuietTracks(w, Settle(w.(client := Issue(w.client)), id, Refreshing(w.client.sequence + 1)));
  }

  lemma AcceptTracks(w: World, id: nat, request: nat, revision: nat, state: Option<string>)
    requires AllTracked(w) && id < |w.invocations|
    ensures AllTracked(Accept(w, id, request, revision, state))
  {
    QuietTracks(w, Accept(w, id, request, revision, state));
  }

  lemma RefreshTracks(w: World, id: nat, snapshot: Snapshot)
    requires AllTracked(w) && CanHappen(w, Refreshed(id, snapshot))
    ensures AllTracked(Refresh(w, id, snapshot))
  {
    hide *;
    RefreshIs(w, id, snapshot);
    OfferIs(w, id, snapshot);
    var inv := w.invocations[id];
    var w1 := Offer(w, inv.phase.request, snapshot);
    SettleTracks(w1, id, Returned);
    SettleTracks(w1, id, Thrown);
    SendTracks(w1, id, inv.(attempt := inv.attempt + 1, replay := 0, expected := w1.client.revision));
  }

  lemma OfferIs(w: World, id: nat, snapshot: Snapshot)
    requires AllTracked(w) && CanHappen(w, Refreshed(id, snapshot))
    ensures id < |w.invocations| && (w.invocations[id].phase.Refreshing? || w.invocations[id].phase.Confirming?)
    ensures var w1 := Offer(w, w.invocations[id].phase.request, snapshot); AllTracked(w1) && |w1.invocations| == |w.invocations|
  {
    var w1 := Offer(w, w.invocations[id].phase.request, snapshot);
    QuietTracks(w, w1);
  }

  // ---- every request has its event -----------------------------------------------------

  lemma StepSends(w: World, e: Event)
    requires AllTracked(w) && CanHappen(w, e)
    ensures Step(w, e).sent == w.sent || exists s :: Sends(w, e, s)
  {
    match e
    case ReadIssued =>
    case ReadArrived(_, _) =>
    case Invoked(_, _) =>
      assert Sends(w, e, Sent(|w.invocations|, w.client.sequence + 1, w.client.revision));
    case Answered(id, answer) => ReceiveSends(w, id, answer);
    case Refreshed(id, snapshot) => RefreshSends(w, id, snapshot);
  }

  lemma ReceiveSends(w: World, id: nat, answer: Answer)
    requires AllTracked(w) && CanHappen(w, Answered(id, answer))
    ensures Receive(w, id, answer).sent == w.sent || exists s :: Sends(w, Answered(id, answer), s)
  {
    var inv := w.invocations[id];
    assert Tracked(w, id);
    if answer == Lost(false) && inv.replay == 0 && inv.transportRetry {
      assert Sends(w, Answered(id, answer), Sent(id, w.client.sequence + 1, inv.expected));
    }
  }

  lemma RefreshSends(w: World, id: nat, snapshot: Snapshot)
    requires AllTracked(w) && CanHappen(w, Refreshed(id, snapshot))
    ensures Refresh(w, id, snapshot).sent == w.sent || exists s :: Sends(w, Refreshed(id, snapshot), s)
  {
    var inv := w.invocations[id];
    var w1 := Offer(w, inv.phase.request, snapshot);
    assert Tracked(w, id);
    if !inv.phase.Confirming? && !snapshot.Unreachable? {
      assert Sends(w, Refreshed(id, snapshot), Sent(id, w1.client.sequence + 1, w1.client.revision));
    }
  }

  lemma {:induction false} RunsSend(w: World, run: seq<Event>, k: nat)
    requires AllTracked(w) && Legal(w, run) && |w.sent| <= k < |After(w, run).sent|
    ensures SentAlong(w, run, After(w, run).sent[k])
    decreases |run|
  {
    if run != [] {
      var w1 := Step(w, run[0]);
      StepTracks(w, run[0]);
      StepSends(w, run[0]);
      if |w1.sent| <= k {
        RunsSend(w1, run[1..], k);
      } else {
        SentStays(w1, run[1..]);
        var s :| Sends(w, run[0], s);
        assert After(w, run).sent[k] == w1.sent[k] == s;
      }
    }
  }

  lemma {:induction false} SentStays(w: World, run: seq<Event>)
    requires Legal(w, run)
    ensures w.sent <= After(w, run).sent
    decreases |run|
  {
    if run != [] { SentStays(Step(w, run[0]), run[1..]); }
  }

  /**
   Over every run each request was sent by one event of it: the first of an invocation with the client's revision at the
   moment it was invoked, a repeat after a transport error with the revision of the request it repeats, a repeat after
   a conflict with the client's revision right after the read that answered the conflict.
   */
  lemma EveryRequestCarriesItsRevision(state: string, revision: nat, run: seq<Event>, k: nat)
    requires Legal(Begin(state, revision), run) && k < |After(Begin(state, revision), run).sent|
    ensures SentAlong(Begin(state, revision), run, After(Begin(state, revision), run).sent[k])
  {
    RunsSend(Begin(state, revision), run, k);
  }
}

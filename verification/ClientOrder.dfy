/**
 The order in which mutation responses replace the state the client shows. One invocation is
 accepted once; two responses can only be shown out of order at one revision.
 */
module ClientOrder {
  import opened Base
  import opened ClientFence
  import ReceiptTables

  // The responses that put a state on the screen on behalf of an invocation.
  predicate Shown(e: Entry) {
    e.caller.Some? && e.state.Some?
  }

  predicate InRequestOrder(log: seq<Entry>) {
    forall i, j :: 0 <= i < j < |log| && Shown(log[i]) && Shown(log[j]) && log[i].revision == log[j].revision ==>
      log[i].request < log[j].request
  }

  predicate NeverShared(log: seq<Entry>) {
    forall i, j :: 0 <= i < j < |log| && Shown(log[i]) && Shown(log[j]) ==> log[i].revision != log[j].revision
  }

  // Each invocation that is accepted is accepted at the revision given for it.
  predicate AcceptedAt(e: Event, revisions: map<nat, nat>) {
    e.Answered? && e.answer.Accepted? ==> e.invocation in revisions && revisions[e.invocation] == e.answer.revision
  }

  predicate Follows(run: seq<Event>, revisions: map<nat, nat>) {
    forall k :: 0 <= k < |run| ==> AcceptedAt(run[k], revisions)
  }

  // No two invocations are accepted at one revision, unless the client was already past it when it began.
  predicate Apart(revisions: map<nat, nat>, first: nat) {
    forall p, q :: p in revisions && q in revisions && p != q && revisions[p] == revisions[q] ==> revisions[p] < first
  }

  // ---- who each shown response belongs to ----------------------------------------------

  predicate Owned(w: World, e: Entry, revisions: map<nat, nat>, first: nat) {
    && (e.caller.Some? ==> Finished(w, e.caller.value))
    && (Shown(e) ==>
          && e.caller.value in revisions
          && revisions[e.caller.value] == e.revision
          && first <= e.revision)
  }

  predicate OneEach(log: seq<Entry>) {
    forall i, j :: 0 <= i < j < |log| && log[i].caller.Some? ==> log[i].caller != log[j].caller
  }

  predicate Attributed(w: World, revisions: map<nat, nat>, first: nat) {
    && first <= w.client.revision
    && (forall i :: 0 <= i < |w.log| ==> Owned(w, w.log[i], revisions, first))
    && OneEach(w.log)
  }

  // What one event adds to the log: a read, or the response of an invocation that was waiting.
  ghost predicate Adds(w: World, e: Event, w1: World) {
    || w1.log == w.log
    || (exists x: Entry :: w1.log == w.log + [x] && Added(w, e, w1, x))
  }

  predicate Added(w: World, e: Event, w1: World, x: Entry) {
    x.caller.Some? ==>
      && e.Answered? && e.answer.Accepted? && x.caller.value == e.invocation
      && e.invocation < |w.invocations| && w.invocations[e.invocation].phase.Waiting?
      && Finished(w1, e.invocation)
      && (x.state.Some? ==> x.revision == e.answer.revision && w.client.revision <= x.revision)
  }

  lemma StepAdds(w: World, e: Event)
    requires CanHappen(w, e)
    ensures Adds(w, e, Step(w, e)) && w.client.revision <= Step(w, e).client.revision
  {
  }

  lemma StepAttributes(w: World, e: Event, revisions: map<nat, nat>, first: nat)
    requires Attributed(w, revisions, first) && CanHappen(w, e) && AcceptedAt(e, revisions)
    ensures Attributed(Step(w, e), revisions, first)
  {
    var w1 := Step(w, e);
    StepAdds(w, e);
    forall i | 0 <= i < |w.log| ensures Owned(w1, w.log[i], revisions, first) {
      if w.log[i].caller.Some? { FinishedStep(w, e, w.log[i].caller.value); }
    }
    if w1.log != w.log {
      var x :| w1.log == w.log + [x] && Added(w, e, w1, x);
      assert forall i :: 0 <= i < |w.log| && w.log[i].caller.Some? ==> w.log[i].caller != x.caller;
    }
  }

  lemma {:induction false} RunsAttribute(w: World, run: seq<Event>, revisions: map<nat, nat>, first: nat)
    requires Attributed(w, revisions, first) && Legal(w, run) && Follows(run, revisions)
    ensures Attributed(After(w, run), revisions, first)
    decreases |run|
  {
    if run != [] {
      assert AcceptedAt(run[0], revisions);
      StepAttributes(w, run[0], revisions, first);
      RunsAttribute(Step(w, run[0]), run[1..], revisions, first);
    }
  }

  // ---- main results --------------------------------------------------------------------

  // With accepted revisions apart, no two mutation responses ever replace the state at one revision.
  lemma ApartIsNeverShared(state: string, first: nat, revisions: map<nat, nat>, run: seq<Event>)
    requires Apart(revisions, first)
    requires Legal(Begin(state, first), run) && Follows(run, revisions)
    ensures NeverShared(After(Begin(state, first), run).log)
  {
    RunsAttribute(Begin(state, first), run, revisions, first);
    var w := After(Begin(state, first), run);
    forall i, j | 0 <= i < j < |w.log| && Shown(w.log[i]) && Shown(w.log[j]) ensures w.log[i].revision != w.log[j].revision {
      assert Owned(w, w.log[i], revisions, first) && Owned(w, w.log[j], revisions, first);
    }
  }

  function Begun(n: nat): seq<Event> {
    if n == 0 then [] else Begun(n - 1) + [Invoked(false, false)]
  }

  lemma {:induction false} RunsConcat(w: World, run: seq<Event>, more: seq<Event>)
    requires Legal(w, run) && Legal(After(w, run), more)
    ensures Legal(w, run + more) && After(w, run + more) == After(After(w, run), more)
    decreases |run|
  {
    if run == [] {
      assert run + more == more;
    } else {
      assert (run + more)[0] == run[0] && (run + more)[1..] == run[1..] + more;
      RunsConcat(Step(w, run[0]), run[1..], more);
    }
  }

  lemma OneStep(w: World, e: Event)
    requires CanHappen(w, e)
    ensures Legal(w, [e]) && After(w, [e]) == Step(w, e)
  {
    assert [e][1..] == [];
  }

  // n invocations, each waiting under the request of its turn.
  lemma {:induction false} BegunWaits(state: string, first: nat, n: nat)
    ensures Legal(Begin(state, first), Begun(n))
    ensures var w := After(Begin(state, first), Begun(n));
            && |w.invocations| == n && w.log == [] && w.client == Client(first, n, 0, 0, state)
            && (forall k :: 0 <= k < n ==> w.invocations[k].phase == Waiting(k + 1))
  {
    if n > 0 {
      BegunWaits(state, first, n - 1);
      var w := After(Begin(state, first), Begun(n - 1));
      var e := Invoked(false, false);
      OneStep(w, e);
      RunsConcat(Begin(state, first), Begun(n - 1), [e]);
    }
  }

  // The later of two invocations is answered first, both at one revision.
  function Crossed(p: nat, q: nat, revision: nat): seq<Event> {
    Begun(q + 1) + [Answered(q, Accepted(revision, Some("later"))), Answered(p, Accepted(revision, Some("earlier")))]
  }

  lemma Inverted(log: seq<Entry>)
    requires |log| == 2 && Shown(log[0]) && Shown(log[1])
    requires log[0].revision == log[1].revision && log[1].request < log[0].request
    ensures !InRequestOrder(log)
  {
  }

  lemma CrossedIsOutOfOrder(state: string, first: nat, p: nat, q: nat, revision: nat)
    requires p < q && first <= revision
    ensures Legal(Begin(state, first), Crossed(p, q, revision))
    ensures var w := After(Begin(state, first), Crossed(p, q, revision));
            !InRequestOrder(w.log) && w.client.state == "earlier"
  {
    BegunWaits(state, first, q + 1);
    var w := After(Begin(state, first), Begun(q + 1));
    var e, f := Answered(q, Accepted(revision, Some("later"))), Answered(p, Accepted(revision, Some("earlier")));
    var w1 := Step(w, e);
    var w2 := Step(w1, f);
    assert w2.log == [Entry(Some(q), q + 1, revision, q + 1, Some("later")),
                      Entry(Some(p), p + 1, revision, q + 1, Some("earlier"))];
    OneStep(w1, f);
    assert [e, f][1..] == [f];
    RunsConcat(Begin(state, first), Begun(q + 1), [e, f]);
    Inverted(w2.log);
  }

  lemma BegunFollows(n: nat, revisions: map<nat, nat>)
    ensures Follows(Begun(n), revisions)
  {
  }

  /**
   Whatever a server answers, the responses shown at one revision are in request order in every run, exactly when the
   revisions at which it accepts the invocations are apart.
   */
  lemma OrderedIffApart(state: string, first: nat, revisions: map<nat, nat>)
    ensures (forall run :: Legal(Begin(state, first), run) && Follows(run, revisions) ==>
               InRequestOrder(After(Begin(state, first), run).log))
            <==> Apart(revisions, first)
  {
    if Apart(revisions, first) {
      forall run | Legal(Begin(state, first), run) && Follows(run, revisions)
        ensures InRequestOrder(After(Begin(state, first), run).log)
      {
        ApartIsNeverShared(state, first, revisions, run);
      }
    } else {
      var p, q :| p in revisions && q in revisions && p < q && revisions[p] == revisions[q] && first <= revisions[p];
      var run := Crossed(p, q, revisions[p]);
      CrossedIsOutOfOrder(state, first, p, q, revisions[p]);
      BegunFollows(q + 1, revisions);
    }
  }

  // ---- the revisions the owner accepts at ----------------------------------------------

  // The accepted revisions of the receipts that the keys of a session's invocations hold.
  function ReceiptRevisions(t: ReceiptTables.Tables, keys: seq<ReceiptTables.Ref>): map<nat, nat> {
    map id: nat | id < |keys| && keys[id] in t.receipts :: t.receipts[keys[id]].acceptedRevision
  }

  /**
   Every invocation has a key of its own and is accepted at the revision of its receipt; the ledger keeps those apart,
   so no two mutation responses of one session are ever shown at one revision.
   */
  lemma LedgerKeepsResponsesApart(state: string, first: nat, t: ReceiptTables.Tables, keys: seq<ReceiptTables.Ref>,
                                  run: seq<Event>)
    requires ReceiptTables.Valid(t)
    requires forall i, j :: 0 <= i < j < |keys| ==> keys[i] != keys[j] && keys[i].session == keys[j].session
    requires Legal(Begin(state, first), run) && Follows(run, ReceiptRevisions(t, keys))
    ensures NeverShared(After(Begin(state, first), run).log)
  {
    var revisions := ReceiptRevisions(t, keys);
    forall p, q | p in revisions && q in revisions && p != q ensures revisions[p] != revisions[q] {
      assert keys[p] != keys[q] && keys[p].session == keys[q].session;
    }
    ApartIsNeverShared(state, first, revisions, run);
  }
}

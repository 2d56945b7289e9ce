/**
 The client's view of an owner-held engine: reads and mutation responses arrive in any
 order, and three counters decide which of them may replace the state that is shown.
 */
module ClientFence {
  import opened Base

  datatype Source = Read | Mutation

  // The variables of the engine projection. A state is represented by its JSON text.
  datatype Client = Client(revision: nat, sequence: nat, accepted: nat, floor: nat, state: string)

  function Opened(state: string, revision: nat): Client {
    Client(revision, 0, 0, 0, state)
  }

  // ---- publication ---------------------------------------------------------------------

  predicate Fenced(c: Client, revision: nat, request: nat, source: Source) {
    || revision < c.revision
    || (revision == c.revision && source == Read && (request <= c.accepted || request < c.floor))
  }

  // The client after a response that carries a state, and whether listeners are notified.
  function Publish(c: Client, next: string, revision: nat, request: nat, source: Source): (Client, bool) {
    if Fenced(c, revision, request, source) then (c, false)
    else
      (Client(Base.Max(revision, c.revision), c.sequence, Base.Max(c.accepted, request),
              if source == Mutation then c.sequence + 1 else c.floor, next),
       source == Mutation || next != c.state)
  }

  // A mutation accepted without a state only raises the fences.
  function Fence(c: Client, revision: nat, request: nat): Client {
    Client(Base.Max(revision, c.revision), c.sequence, Base.Max(c.accepted, request), c.sequence + 1, c.state)
  }

  // ---- invocations ---------------------------------------------------------------------

  datatype Phase = Waiting(request: nat) | Refreshing(request: nat) | Confirming(request: nat) | Returned | Thrown
  datatype Invocation = Invocation(conflictRetry: bool, transportRetry: bool, expected: nat,
                                   attempt: nat, replay: nat, phase: Phase)

  // One request on the wire for an invocation; all requests of one invocation share its key.
  datatype Sent = Sent(invocation: nat, request: nat, expected: nat)

  // A response that passed the fences: the invocation it answers unless it is a read, and the
  // sequence number reached when it arrived.
  datatype Entry = Entry(caller: Option<nat>, request: nat, revision: nat, sequence: nat, state: Option<string>) {
    function Kind(): Source { if caller.Some? then Mutation else Read }
  }

  datatype World = World(client: Client, polls: set<nat>, invocations: seq<Invocation>, sent: seq<Sent>, log: seq<Entry>)

  function Begin(state: string, revision: nat): World {
    World(Opened(state, revision), {}, [], [], [])
  }

  // What a request can come back as.
  datatype Answer =
    | Accepted(revision: nat, state: Option<string>)
    | Refused(conflict: bool)
    | Lost(aborted: bool)

  datatype Snapshot = Got(state: string, revision: nat) | NotOk | Unreachable

  datatype Event =
    | ReadIssued
    | ReadArrived(request: nat, snapshot: Snapshot)
    | Invoked(conflictRetry: bool, transportRetry: bool)
    | Answered(invocation: nat, answer: Answer)
    | Refreshed(invocation: nat, snapshot: Snapshot)

  predicate CanHappen(w: World, e: Event) {
    match e
    case ReadIssued => true
    case ReadArrived(request, _) => request in w.polls
    case Invoked(_, _) => true
    case Answered(id, _) => id < |w.invocations| && w.invocations[id].phase.Waiting?
    case Refreshed(id, _) =>
      id < |w.invocations| && (w.invocations[id].phase.Refreshing? || w.invocations[id].phase.Confirming?)
  }

  function Issue(c: Client): Client {
    c.(sequence := c.sequence + 1)
  }

  // A snapshot that arrives for a read is offered for publication.
  function Offer(w: World, request: nat, snapshot: Snapshot): World {
    if !snapshot.Got? || Fenced(w.client, snapshot.revision, request, Read) then w
    else
      w.(client := Publish(w.client, snapshot.state, snapshot.revision, request, Read).0,
         log := w.log + [Entry(None, request, snapshot.revision, w.client.sequence, Some(snapshot.state))])
  }

  // Sends a request for the invocation, numbered like the reads.
  function Send(w: World, id: nat, inv: Invocation): World
    requires id <= |w.invocations|
  {
    var request := w.client.sequence + 1;
    var waiting := inv.(phase := Waiting(request));
    w.(client := Issue(w.client),
       invocations := if id < |w.invocations| then w.invocations[id := waiting] else w.invocations + [waiting],
       sent := w.sent + [Sent(id, request, inv.expected)])
  }

  function Settle(w: World, id: nat, phase: Phase): World
    requires id < |w.invocations|
  {
    w.(invocations := w.invocations[id := w.invocations[id].(phase := phase)])
  }

  // A mutation response that carries the state it led to.
  function Replaced(w: World, id: nat, request: nat, revision: nat, next: string): World {
    if Fenced(w.client, revision, request, Mutation) then w
    else
      w.(client := Publish(w.client, next, revision, request, Mutation).0,
         log := w.log + [Entry(Some(id), request, revision, w.client.sequence, Some(next))])
  }

  // A mutation response without a state: the fences go up, and a read is issued.
  function Receipted(w: World, id: nat, request: nat, revision: nat): World {
    var fenced := Fence(w.client, revision, request);
    w.(client := Issue(fenced),
       log := w.log + [Entry(Some(id), request, fenced.revision, w.client.sequence, None)])
  }

  function Accept(w: World, id: nat, request: nat, revision: nat, state: Option<string>): World
    requires id < |w.invocations|
  {
    match state
    case Some(next) => Settle(Replaced(w, id, request, revision, next), id, Returned)
    case None => Settle(Receipted(w, id, request, revision), id, Confirming(w.client.sequence + 1))
  }

  function Receive(w: World, id: nat, answer: Answer): World
    requires id < |w.invocations| && w.invocations[id].phase.Waiting?
  {
    var inv := w.invocations[id];
    match answer
    case Accepted(revision, state) => Accept(w, id, inv.phase.request, revision, state)
    case Lost(aborted) =>
      if aborted || inv.replay > 0 || !inv.transportRetry then Settle(w, id, Thrown)
      else Send(w, id, inv.(replay := inv.replay + 1))
    case Refused(conflict) =>
      if !conflict || inv.attempt > 0 || !inv.conflictRetry then Settle(w, id, Thrown)
      else Settle(w.(client := Issue(w.client)), id, Refreshing(w.client.sequence + 1))
  }

  // The read that follows a conflict or a stateless acceptance has come back.
  function Refresh(w: World, id: nat, snapshot: Snapshot): World
    requires id < |w.invocations| && (w.invocations[id].phase.Refreshing? || w.invocations[id].phase.Confirming?)
  {
    var inv := w.invocations[id];
    var w1 := Offer(w, inv.phase.request, snapshot);
    if inv.phase.Confirming? then Settle(w1, id, Returned)
    else if snapshot.Unreachable? then Settle(w1, id, Thrown)
    else Send(w1, id, inv.(attempt := inv.attempt + 1, replay := 0, expected := w1.client.revision))
  }

  function Step(w: World, e: Event): World
    requires CanHappen(w, e)
  {
    match e
    case ReadIssued => w.(client := Issue(w.client), polls := w.polls + {w.client.sequence + 1})
    case ReadArrived(request, snapshot) => Offer(w.(polls := w.polls - {request}), request, snapshot)
    case Invoked(conflictRetry, transportRetry) =>
      Send(w, |w.invocations|, Invocation(conflictRetry, transportRetry, w.client.revision, 0, 0, Thrown))
    case Answered(id, answer) => Receive(w, id, answer)
    case Refreshed(id, snapshot) => Refresh(w, id, snapshot)
  }

  predicate Legal(w: World, run: seq<Event>)
    decreases |run|
  {
    run == [] || (CanHappen(w, run[0]) && Legal(Step(w, run[0]), run[1..]))
  }

  function After(w: World, run: seq<Event>): World
    requires Legal(w, run)
    decreases |run|
  {
    if run == [] then w else After(Step(w, run[0]), run[1..])
  }

  // ---- the fencing invariant -----------------------------------------------------------

  predicate CountersOk(c: Client) {
    c.accepted <= c.sequence && c.floor <= c.sequence + 1
  }

  predicate BelowFences(log: seq<Entry>, c: Client) {
    forall i :: 0 <= i < |log| ==>
      && log[i].revision <= c.revision
      && log[i].request <= c.accepted
      && (log[i].Kind() == Mutation ==> log[i].sequence < c.floor)
  }

  predicate InOrder(log: seq<Entry>) {
    forall i, j :: 0 <= i < j < |log| ==>
      && log[i].revision <= log[j].revision
      && (log[i].revision == log[j].revision && log[j].Kind() == Read ==>
            && log[i].request < log[j].request
            && (log[i].Kind() == Mutation ==> log[i].sequence < log[j].request))
  }

  function Newest(log: seq<Entry>, first: string): string {
    if log == [] then first
    else if log[|log| - 1].state.Some? then log[|log| - 1].state.value
    else Newest(log[..|log| - 1], first)
  }

  predicate InFlight(w: World) {
    && (forall r :: r in w.polls ==> r <= w.client.sequence)
    && (forall i :: 0 <= i < |w.invocations| ==>
          match w.invocations[i].phase
          case Waiting(r) => r <= w.client.sequence
          case Refreshing(r) => r <= w.client.sequence
          case Confirming(r) => r <= w.client.sequence
          case _ => true)
  }

  predicate Inv(w: World, first: string) {
    && CountersOk(w.client)
    && BelowFences(w.log, w.client)
    && InOrder(w.log)
    && w.client.state == Newest(w.log, first)
    && InFlight(w)
  }

  // An entry that passed the fences fits behind the log it is added to.
  lemma EntryFits(log: seq<Entry>, c: Client, c1: Client, e: Entry, first: string)
    requires BelowFences(log, c) && InOrder(log)
    requires c.revision <= e.revision == c1.revision
    requires c.accepted <= c1.accepted && e.request <= c1.accepted && c.floor <= c1.floor
    requires e.Kind() == Mutation ==> e.sequence < c1.floor
    requires e.Kind() == Read && e.revision == c.revision ==> c.accepted < e.request && c.floor <= e.request
    ensures BelowFences(log + [e], c1) && InOrder(log + [e])
    ensures Newest(log + [e], first) == if e.state.Some? then e.state.value else Newest(log, first)
  {
    assert (log + [e])[..|log|] == log;
  }

  lemma OfferKeeps(w: World, request: nat, snapshot: Snapshot, first: string)
    requires Inv(w, first) && request <= w.client.sequence
    ensures Inv(Offer(w, request, snapshot), first)
    ensures Offer(w, request, snapshot).client.sequence == w.client.sequence
    ensures Offer(w, request, snapshot).client.revision >= w.client.revision
  {
    var w1 := Offer(w, request, snapshot);
    if w1 != w {
      EntryFits(w.log, w.client, w1.client,
                Entry(None, request, snapshot.revision, w.client.sequence, Some(snapshot.state)), first);
    }
  }

  lemma ReplacedKeeps(w: World, id: nat, request: nat, revision: nat, next: string, first: string)
    requires Inv(w, first) && request <= w.client.sequence
    ensures Inv(Replaced(w, id, request, revision, next), first)
    ensures Replaced(w, id, request, revision, next).invocations == w.invocations
  {
    var w1 := Replaced(w, id, request, revision, next);
    if w1 != w {
      EntryFits(w.log, w.client, w1.client, Entry(Some(id), request, revision, w.client.sequence, Some(next)), first);
    }
  }

  lemma ReceiptedKeeps(w: World, id: nat, request: nat, revision: nat, first: string)
    requires Inv(w, first) && request <= w.client.sequence
    ensures Inv(Receipted(w, id, request, revision), first)
    ensures Receipted(w, id, request, revision).invocations == w.invocations
    ensures Receipted(w, id, request, revision).client.sequence == w.client.sequence + 1
  {
    hide Newest, InOrder, BelowFences;
    var fenced := Fence(w.client, revision, request);
    EntryFits(w.log, w.client, Issue(fenced),
              Entry(Some(id), request, fenced.revision, w.client.sequence, None), first);
  }

  lemma AcceptKeeps(w: World, id: nat, request: nat, revision: nat, state: Option<string>, first: string)
    requires Inv(w, first) && request <= w.client.sequence && id < |w.invocations|
    ensures Inv(Accept(w, id, request, revision, state), first)
  {
    hide *;
    ReplacedKeeps(w, id, request, revision, if state.Some? then state.value else "", first);
    ReceiptedKeeps(w, id, request, revision, first);
    AcceptIs(w, id, request, revision, state);
    match state
    case Some(next) =>
      SettleKeeps(Replaced(w, id, request, revision, next), id, Returned, first);
    case None =>
      SettleKeeps(Receipted(w, id, request, revision), id, Confirming(w.client.sequence + 1), first);
  }

  lemma AcceptIs(w: World, id: nat, request: nat, revision: nat, state: Option<string>)
    requires id < |w.invocations|
    requires |Replaced(w, id, request, revision, if state.Some? then state.value else "").invocations| == |w.invocations|
    requires |Receipted(w, id, request, revision).invocations| == |w.invocations|
    ensures Accept(w, id, request, revision, state) ==
      match state
      case Some(next) => Settle(Replaced(w, id, request, revision, next), id, Returned)
      case None => Settle(Receipted(w, id, request, revision), id, Confirming(w.client.sequence + 1))
  {
  }

  lemma SendKeeps(w: World, id: nat, inv: Invocation, first: string)
    requires Inv(w, first) && id <= |w.invocations|
    ensures Inv(Send(w, id, inv), first)
  {
  }

  lemma SettleKeeps(w: World, id: nat, phase: Phase, first: string)
    requires Inv(w, first) && id < |w.invocations|
    requires phase.Returned? || phase.Thrown? || phase.request <= w.client.sequence
    ensures Inv(Settle(w, id, phase), first)
  {
  }

  lemma IssueKeeps(w: World, first: string)
    requires Inv(w, first)
    ensures Inv(w.(client := Issue(w.client)), first)
  {
  }

  lemma ReceiveKeeps(w: World, id: nat, answer: Answer, first: string)
    requires Inv(w, first) && id < |w.invocations| && w.invocations[id].phase.Waiting?
    ensures Inv(Receive(w, id, answer), first)
  {
    var inv := w.invocations[id];
    match answer
    case Accepted(revision, state) => AcceptKeeps(w, id, inv.phase.request, revision, state, first);
    case Lost(_) =>
      SettleKeeps(w, id, Thrown, first);
      SendKeeps(w, id, inv.(replay := inv.replay + 1), first);
    case Refused(_) =>
      SettleKeeps(w, id, Thrown, first);
      IssueKeeps(w, first);
      SettleKeeps(w.(client := Issue(w.client)), id, Refreshing(w.client.sequence + 1), first);
  }

  lemma RefreshKeeps(w: World, id: nat, snapshot: Snapshot, first: string)
    requires Inv(w, first) && CanHappen(w, Refreshed(id, snapshot))
    ensures Inv(Refresh(w, id, snapshot), first)
  {
    hide *;
    RequestIsOld(w, id, snapshot, first);
    var inv := w.invocations[id];
    OfferKeeps(w, inv.phase.request, snapshot, first);
    var w1 := Offer(w, inv.phase.request, snapshot);
    OfferSpares(w, inv.phase.request, snapshot);
    RefreshIs(w, id, snapshot);
    SettleKeeps(w1, id, Returned, first);
    SettleKeeps(w1, id, Thrown, first);
    SendKeeps(w1, id, inv.(attempt := inv.attempt + 1, replay := 0, expected := w1.client.revision), first);
  }

  lemma RequestIsOld(w: World, id: nat, snapshot: Snapshot, first: string)
    requires Inv(w, first) && CanHappen(w, Refreshed(id, snapshot))
    ensures id < |w.invocations| && (w.invocations[id].phase.Refreshing? || w.invocations[id].phase.Confirming?)
    ensures w.invocations[id].phase.request <= w.client.sequence
  {
  }

  lemma OfferSpares(w: World, request: nat, snapshot: Snapshot)
    ensures Offer(w, request, snapshot).invocations == w.invocations && Offer(w, request, snapshot).sent == w.sent
  {
  }

  lemma RefreshIs(w: World, id: nat, snapshot: Snapshot)
    requires CanHappen(w, Refreshed(id, snapshot))
    ensures var inv := w.invocations[id];
            var w1 := Offer(w, inv.phase.request, snapshot);
            && |w1.invocations| == |w.invocations|
            && Refresh(w, id, snapshot) ==
                 if inv.phase.Confirming? then Settle(w1, id, Returned)
                 else if snapshot.Unreachable? then Settle(w1, id, Thrown)
                 else Send(w1, id, inv.(attempt := inv.attempt + 1, replay := 0, expected := w1.client.revision))
  {
  }

  lemma StepKeepsInv(w: World, e: Event, first: string)
    requires Inv(w, first) && CanHappen(w, e)
    ensures Inv(Step(w, e), first)
  {
    match e
    case ReadIssued => IssueKeeps(w, first);
    case ReadArrived(request, snapshot) => OfferKeeps(w.(polls := w.polls - {request}), request, snapshot, first);
    case Invoked(conflictRetry, transportRetry) =>
      SendKeeps(w, |w.invocations|, Invocation(conflictRetry, transportRetry, w.client.revision, 0, 0, Thrown), first);
    case Answered(id, answer) => ReceiveKeeps(w, id, answer, first);
    case Refreshed(id, snapshot) => RefreshKeeps(w, id, snapshot, first);
  }

  lemma {:induction false} RunsKeepInv(w: World, run: seq<Event>, first: string)
    requires Inv(w, first) && Legal(w, run)
    ensures Inv(After(w, run), first)
    decreases |run|
  {
    if run != [] {
      StepKeepsInv(w, run[0], first);
      RunsKeepInv(Step(w, run[0]), run[1..], first);
    }
  }

  // ---- main results --------------------------------------------------------------------

  // Over every run: responses that pass the fences have non-decreasing revisions, and what is
  // shown is the state of the newest of them that carried one.
  lemma ShownRevisionNeverDecreases(state: string, revision: nat, run: seq<Event>)
    requires Legal(Begin(state, revision), run)
    ensures var w := After(Begin(state, revision), run);
            && (forall i, j :: 0 <= i < j < |w.log| ==> w.log[i].revision <= w.log[j].revision <= w.client.revision)
            && w.client.state == Newest(w.log, state)
  {
    RunsKeepInv(Begin(state, revision), run, state);
  }

  lemma {:induction false} RevisionIsMonotone(w: World, run: seq<Event>)
    requires Legal(w, run)
    ensures After(w, run).client.revision >= w.client.revision
    ensures w.log <= After(w, run).log
    decreases |run|
  {
    if run != [] { RevisionIsMonotone(Step(w, run[0]), run[1..]); }
  }

  // Reads that take effect at one revision were issued in the order they take effect.
  lemma ReadsAtOneRevisionAscend(state: string, revision: nat, run: seq<Event>, i: nat, j: nat)
    requires Legal(Begin(state, revision), run)
    requires var log := After(Begin(state, revision), run).log;
             i < j < |log| && log[i].Kind() == Read && log[j].Kind() == Read && log[i].revision == log[j].revision
    ensures var log := After(Begin(state, revision), run).log; log[i].request < log[j].request
  {
    RunsKeepInv(Begin(state, revision), run, state);
  }

  // Once a mutation is accepted, a read issued before its response arrived never overwrites the
  // state at that revision.
  lemma MutationsFenceEarlierReads(state: string, revision: nat, run: seq<Event>, i: nat, j: nat)
    requires Legal(Begin(state, revision), run)
    requires var log := After(Begin(state, revision), run).log;
             i < j < |log| && log[i].Kind() == Mutation && log[j].Kind() == Read && log[i].revision == log[j].revision
    ensures var log := After(Begin(state, revision), run).log; log[i].sequence < log[j].request
  {
    RunsKeepInv(Begin(state, revision), run, state);
  }

  // ---- how often an invocation is sent -------------------------------------------------

  function SendsOf(sent: seq<Sent>, id: nat): nat {
    if sent == [] then 0 else SendsOf(sent[..|sent| - 1], id) + (if sent[|sent| - 1].invocation == id then 1 else 0)
  }

  function Tries(inv: Invocation): nat {
    (if inv.conflictRetry then 2 else 1) * (if inv.transportRetry then 2 else 1)
  }

  // Each attempt is sent at most twice, there are at most two, and each needs its method's leave.
  predicate Bounded(inv: Invocation, sends: nat) {
    && inv.replay <= (if inv.transportRetry then 1 else 0)
    && inv.attempt <= (if inv.conflictRetry then 1 else 0)
    && (inv.phase.Refreshing? ==> inv.attempt == 0 && inv.conflictRetry)
    && 1 <= sends <= inv.attempt * (if inv.transportRetry then 2 else 1) + inv.replay + 1
  }

  predicate Counted(w: World) {
    && (forall id :: 0 <= id < |w.invocations| ==> Bounded(w.invocations[id], SendsOf(w.sent, id)))
    && (forall k :: 0 <= k < |w.sent| ==> w.sent[k].invocation < |w.invocations|)
  }

  lemma {:induction false} Unsent(sent: seq<Sent>, id: nat)
    requires forall k :: 0 <= k < |sent| ==> sent[k].invocation != id
    ensures SendsOf(sent, id) == 0
  {
    if sent != [] { Unsent(sent[..|sent| - 1], id); }
  }

  lemma OneMore(sent: seq<Sent>, s: Sent, id: nat)
    ensures SendsOf(sent + [s], id) == SendsOf(sent, id) + (if s.invocation == id then 1 else 0)
  {
    assert (sent + [s])[..|sent|] == sent;
  }

  lemma SendCounts(w: World, id: nat, inv: Invocation)
    requires Counted(w) && id <= |w.invocations|
    requires Bounded(inv.(phase := Waiting(0)), (if id < |w.invocations| then SendsOf(w.sent, id) else 0) + 1)
    ensures Counted(Send(w, id, inv))
  {
    var w1 := Send(w, id, inv);
    if id == |w.invocations| { Unsent(w.sent, id); }
    forall k | 0 <= k < |w1.invocations| ensures Bounded(w1.invocations[k], SendsOf(w1.sent, k)) {
      OneMore(w.sent, Sent(id, w.client.sequence + 1, inv.expected), k);
      if k != id { assert w1.invocations[k] == w.invocations[k]; }
    }
  }

  lemma SettleCounts(w: World, id: nat, phase: Phase)
    requires Counted(w) && id < |w.invocations|
    requires phase.Refreshing? ==> w.invocations[id].attempt == 0 && w.invocations[id].conflictRetry
    ensures Counted(Settle(w, id, phase))
  {
  }

  lemma StepCounts(w: World, e: Event)
    requires Counted(w) && CanHappen(w, e)
    ensures Counted(Step(w, e))
  {
    match e
    case ReadIssued =>
    case ReadArrived(request, snapshot) =>
    case Invoked(conflictRetry, transportRetry) =>
      SendCounts(w, |w.invocations|, Invocation(conflictRetry, transportRetry, w.client.revision, 0, 0, Thrown));
    case Answered(id, answer) => ReceiveCounts(w, id, answer);
    case Refreshed(id, snapshot) =>
      var inv := w.invocations[id];
      var w1 := Offer(w, inv.phase.request, snapshot);
      assert Counted(w1) && w1.invocations == w.invocations && w1.sent == w.sent;
      if inv.phase.Confirming? {
        SettleCounts(w1, id, Returned);
      } else if snapshot.Unreachable? {
        SettleCounts(w1, id, Thrown);
      } else {
        assert Bounded(inv, SendsOf(w.sent, id));
        SendCounts(w1, id, inv.(attempt := inv.attempt + 1, replay := 0, expected := w1.client.revision));
      }
  }

  lemma ReceiveCounts(w: World, id: nat, answer: Answer)
    requires Counted(w) && id < |w.invocations| && w.invocations[id].phase.Waiting?
    ensures Counted(Receive(w, id, answer))
  {
    hide *;
    var inv := w.invocations[id];
    CountedAt(w, id);
    ReceiveIs(w, id, answer);
    match answer
    case Accepted(revision, state) => AcceptCounts(w, id, inv.phase.request, revision, state);
    case Lost(aborted) =>
      if aborted || inv.replay > 0 || !inv.transportRetry {
        SettleCounts(w, id, Thrown);
      } else {
        OneMoreReplay(inv, SendsOf(w.sent, id));
        SendCounts(w, id, inv.(replay := inv.replay + 1));
      }
    case Refused(conflict) =>
      if !conflict || inv.attempt > 0 || !inv.conflictRetry {
        SettleCounts(w, id, Thrown);
      } else {
        IssueCounts(w);
        SettleCounts(w.(client := Issue(w.client)), id, Refreshing(w.client.sequence + 1));
      }
  }

  lemma CountedAt(w: World, id: nat)
    requires Counted(w) && id < |w.invocations|
    ensures Bounded(w.invocations[id], SendsOf(w.sent, id))
  {
  }

  lemma OneMoreReplay(inv: Invocation, sends: nat)
    requires Bounded(inv, sends) && inv.phase.Waiting? && inv.replay == 0 && inv.transportRetry
    ensures Bounded(inv.(replay := inv.replay + 1).(phase := Waiting(0)), sends + 1)
  {
  }

  lemma IssueCounts(w: World)
    requires Counted(w)
    ensures Counted(w.(client := Issue(w.client)))
  {
  }

  lemma ReceiveIs(w: World, id: nat, answer: Answer)
    requires id < |w.invocations| && w.invocations[id].phase.Waiting?
    ensures var inv := w.invocations[id];
            match answer
            case Accepted(revision, state) => Receive(w, id, answer) == Accept(w, id, inv.phase.request, revision, state)
            case Lost(aborted) =>
              Receive(w, id, answer) ==
                if aborted || inv.replay > 0 || !inv.transportRetry then Settle(w, id, Thrown)
                else Send(w, id, inv.(replay := inv.replay + 1))
            case Refused(conflict) =>
              Receive(w, id, answer) ==
                if !conflict || inv.attempt > 0 || !inv.conflictRetry then Settle(w, id, Thrown)
                else Settle(w.(client := Issue(w.client)), id, Refreshing(w.client.sequence + 1))
  {
  }

  lemma AcceptCounts(w: World, id: nat, request: nat, revision: nat, state: Option<string>)
    requires Counted(w) && id < |w.invocations|
    ensures Counted(Accept(w, id, request, revision, state))
  {
    match state
    case Some(next) => SettleCounts(Replaced(w, id, request, revision, next), id, Returned);
    case None => SettleCounts(Receipted(w, id, request, revision), id, Confirming(w.client.sequence + 1));
  }

  lemma {:induction false} RunsCount(w: World, run: seq<Event>)
    requires Counted(w) && Legal(w, run)
    ensures Counted(After(w, run))
    decreases |run|
  {
    if run != [] {
      StepCounts(w, run[0]);
      RunsCount(Step(w, run[0]), run[1..]);
    }
  }

  // An invocation is sent at least once and at most four times, once only unless its method
  // is marked safe to retry.
  lemma InvocationsAreBounded(state: string, revision: nat, run: seq<Event>, id: nat)
    requires Legal(Begin(state, revision), run)
    requires id < |After(Begin(state, revision), run).invocations|
    ensures var w := After(Begin(state, revision), run);
            1 <= SendsOf(w.sent, id) <= Tries(w.invocations[id]) <= 4
  {
    RunsCount(Begin(state, revision), run);
    var w := After(Begin(state, revision), run);
    assert Bounded(w.invocations[id], SendsOf(w.sent, id));
  }

  // Once an invocation has been accepted, returned or thrown, it is never sent again.
  lemma {:induction false} FinishedInvocationsStayFinished(w: World, run: seq<Event>, id: nat)
    requires Legal(w, run) && Finished(w, id)
    ensures id < |After(w, run).invocations| && SendsOf(After(w, run).sent, id) == SendsOf(w.sent, id)
    decreases |run|
  {
    if run != [] {
      var w1 := Step(w, run[0]);
      FinishedStep(w, run[0], id);
      FinishedInvocationsStayFinished(w1, run[1..], id);
    }
  }

  predicate Finished(w: World, id: nat) {
    id < |w.invocations|
    && (w.invocations[id].phase.Confirming? || w.invocations[id].phase.Returned? || w.invocations[id].phase.Thrown?)
  }

  lemma SendElsewhere(w: World, other: nat, inv: Invocation, id: nat)
    requires Finished(w, id) && other != id && other <= |w.invocations|
    ensures Finished(Send(w, other, inv), id)
    ensures SendsOf(Send(w, other, inv).sent, id) == SendsOf(w.sent, id)
  {
    OneMore(w.sent, Sent(other, w.client.sequence + 1, inv.expected), id);
  }

  lemma SettleAny(w: World, other: nat, phase: Phase, id: nat)
    requires Finished(w, id) && other < |w.invocations|
    requires other != id || phase.Returned? || phase.Thrown?
    ensures Finished(Settle(w, other, phase), id) && Settle(w, other, phase).sent == w.sent
  {
  }

  lemma FinishedStep(w: World, e: Event, id: nat)
    requires CanHappen(w, e) && Finished(w, id)
    ensures Finished(Step(w, e), id) && SendsOf(Step(w, e).sent, id) == SendsOf(w.sent, id)
  {
    match e
    case ReadIssued =>
    case ReadArrived(request, snapshot) =>
    case Invoked(conflictRetry, transportRetry) =>
      SendElsewhere(w, |w.invocations|, Invocation(conflictRetry, transportRetry, w.client.revision, 0, 0, Thrown), id);
    case Answered(other, answer) => FinishedReceive(w, other, answer, id);
    case Refreshed(other, snapshot) =>
      var inv := w.invocations[other];
      var w1 := Offer(w, inv.phase.request, snapshot);
      assert Finished(w1, id) && w1.sent == w.sent;
      SettleAny(w1, other, Returned, id);
      SettleAny(w1, other, Thrown, id);
      if other != id {
        SendElsewhere(w1, other, inv.(attempt := inv.attempt + 1, replay := 0, expected := w1.client.revision), id);
      }
  }

  lemma FinishedReceive(w: World, other: nat, answer: Answer, id: nat)
    requires other < |w.invocations| && w.invocations[other].phase.Waiting? && Finished(w, id)
    ensures Finished(Receive(w, other, answer), id)
    ensures SendsOf(Receive(w, other, answer).sent, id) == SendsOf(w.sent, id)
  {
    var inv := w.invocations[other];
    SettleAny(w, other, Thrown, id);
    match answer
    case Accepted(revision, state) =>
    case Lost(_) => SendElsewhere(w, other, inv.(replay := inv.replay + 1), id);
    case Refused(_) => SettleAny(w.(client := Issue(w.client)), other, Refreshing(w.client.sequence + 1), id);
  }

  // ---- what revision an invocation is sent against -------------------------------------

  predicate SentFits(w: World, s: Sent) {
    && s.request <= w.client.sequence
    && s.invocation < |w.invocations|
    && s.expected <= w.invocations[s.invocation].expected
  }

  predicate SendsAscend(w: World) {
    && (forall k :: 0 <= k < |w.sent| ==> SentFits(w, w.sent[k]))
    && (forall id :: 0 <= id < |w.invocations| ==> w.invocations[id].expected <= w.client.revision)
    && (forall i, j :: 0 <= i < j < |w.sent| ==>
          && w.sent[i].request < w.sent[j].request
          && (w.sent[i].invocation == w.sent[j].invocation ==> w.sent[i].expected <= w.sent[j].expected))
  }

  lemma SendAscends(w: World, id: nat, inv: Invocation)
    requires SendsAscend(w) && id <= |w.invocations| && inv.expected <= w.client.revision
    requires id < |w.invocations| ==> w.invocations[id].expected <= inv.expected
    ensures SendsAscend(Send(w, id, inv))
  {
    var w1 := Send(w, id, inv);
    forall k | 0 <= k < |w1.sent| ensures SentFits(w1, w1.sent[k]) {
      if k < |w.sent| { assert SentFits(w, w.sent[k]); }
    }
    forall k | 0 <= k < |w.sent| ensures w.sent[k].request < w.client.sequence + 1 { assert SentFits(w, w.sent[k]); }
    forall k | 0 <= k < |w.sent| && w.sent[k].invocation == id ensures w.sent[k].expected <= inv.expected {
      assert SentFits(w, w.sent[k]);
    }
  }

  // Steps that send nothing and leave what each invocation expects.
  lemma QuietAscends(w: World, w1: World)
    requires SendsAscend(w) && w1.sent == w.sent
    requires w1.client.sequence >= w.client.sequence && w1.client.revision >= w.client.revision
    requires |w1.invocations| == |w.invocations|
    requires forall id :: 0 <= id < |w.invocations| ==> w1.invocations[id].expected == w.invocations[id].expected
    ensures SendsAscend(w1)
  {
    forall k | 0 <= k < |w1.sent| ensures SentFits(w1, w1.sent[k]) { assert SentFits(w, w.sent[k]); }
  }

  lemma ReceiveAscends(w: World, id: nat, answer: Answer)
    requires SendsAscend(w) && id < |w.invocations| && w.invocations[id].phase.Waiting?
    ensures SendsAscend(Receive(w, id, answer))
  {
    var inv := w.invocations[id];
    match answer
    case Accepted(revision, state) => QuietAscends(w, Receive(w, id, answer));
    case Lost(aborted) =>
      if aborted || inv.replay > 0 || !inv.transportRetry { QuietAscends(w, Receive(w, id, answer)); }
      else { SendAscends(w, id, inv.(replay := inv.replay + 1)); }
    case Refused(_) => QuietAscends(w, Receive(w, id, answer));
  }

  lemma StepAscends(w: World, e: Event)
    requires SendsAscend(w) && CanHappen(w, e)
    ensures SendsAscend(Step(w, e))
  {
    match e
    case ReadIssued => QuietAscends(w, Step(w, e));
    case ReadArrived(request, snapshot) => QuietAscends(w, Step(w, e));
    case Invoked(conflictRetry, transportRetry) =>
      SendAscends(w, |w.invocations|, Invocation(conflictRetry, transportRetry, w.client.revision, 0, 0, Thrown));
    case Answered(id, answer) => ReceiveAscends(w, id, answer);
    case Refreshed(id, snapshot) =>
      var inv := w.invocations[id];
      var w1 := Offer(w, inv.phase.request, snapshot);
      QuietAscends(w, w1);
      if inv.phase.Confirming? || snapshot.Unreachable? { QuietAscends(w, Step(w, e)); }
      else { SendAscends(w1, id, inv.(attempt := inv.attempt + 1, replay := 0, expected := w1.client.revision)); }
  }

  lemma {:induction false} RunsAscend(w: World, run: seq<Event>)
    requires SendsAscend(w) && Legal(w, run)
    ensures SendsAscend(After(w, run))
    decreases |run|
  {
    if run != [] {
      StepAscends(w, run[0]);
      RunsAscend(Step(w, run[0]), run[1..]);
    }
  }

  // Every request has a number of its own, and a retry never goes back to an older revision
  // than the one tried before, nor past the one the client knows.
  lemma RetriesNeverGoBack(state: string, revision: nat, run: seq<Event>, i: nat, j: nat)
    requires Legal(Begin(state, revision), run)
    requires i < j < |After(Begin(state, revision), run).sent|
    ensures var w := After(Begin(state, revision), run);
            && w.sent[i].request < w.sent[j].request
            && (w.sent[i].invocation == w.sent[j].invocation ==>
                  w.sent[i].expected <= w.sent[j].expected <= w.client.revision)
  {
    RunsAscend(Begin(state, revision), run);
    var w := After(Begin(state, revision), run);
    assert SentFits(w, w.sent[j]);
  }
}

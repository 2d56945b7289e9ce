/**
 The ledger-backed journal as an object: publication appends to the ledger before the
 fan-out, subscription replays from it while queueing what is published meanwhile.
 */
module LedgerJournal {
  import opened Base
  import opened EventWindow
  import opened LiveSplice
  import opened RuntimeLedger

  /** One subscriber's callback and the listener calls it made. */
  class Subscription {
    const afterId: nat
    var replaying: bool
    var pending: seq<Row>
    var delivered: seq<Row>

    constructor (afterId: nat)
      ensures this.afterId == afterId && replaying && pending == [] && delivered == []
    {
      this.afterId := afterId;
      replaying, pending, delivered := true, [], [];
    }

    method OnEvent(row: Row)
      modifies this`pending, this`delivered
      ensures row.seqNo <= afterId ==> pending == old(pending) && delivered == old(delivered)
      ensures row.seqNo > afterId && replaying ==> pending == old(pending) + [row] && delivered == old(delivered)
      ensures row.seqNo > afterId && !replaying ==> pending == old(pending) && delivered == old(delivered) + [row]
    {
      if row.seqNo <= afterId { return; }
      if replaying { pending := pending + [row]; } else { delivered := delivered + [row]; }
    }
  }

  function WithHistory(h: map<string, seq<Event>>, session: string, events: seq<Event>): map<string, seq<Event>> {
    h[session := events]
  }

  lemma HistoryOf(h: map<string, seq<Event>>, session: string, events: seq<Event>, more: seq<Event>)
    ensures History(WithHistory(h, session, events), session) == events
    ensures WithHistory(WithHistory(h, session, events), session, more) == WithHistory(h, session, more)
  {
  }

  lemma SameHistory(w: Window, h: map<string, seq<Event>>, session: string)
    requires Describes(w, h)
    ensures Describes(w, WithHistory(h, session, History(h, session)))
  {
    var g := WithHistory(h, session, History(h, session));
    forall s ensures History(g, s) == History(h, s) {}
    SameHistoryDescribes(w, h, g);
  }

  lemma SameHistoryDescribes(w: Window, h: map<string, seq<Event>>, g: map<string, seq<Event>>)
    requires Describes(w, h) && forall s :: History(g, s) == History(h, s)
    ensures Describes(w, g)
  {
  }

  lemma AppendSucceeds(w: Window, h: map<string, seq<Event>>, session: string, event: Event, limit: nat)
    requires Describes(w, h) && limit >= 1 && |History(h, session)| + 2 <= MAX_SAFE_INTEGER
    ensures Append(w, session, event, limit).Some?
    ensures Append(w, session, event, limit).value.seqNo == |History(h, session)| + 1
    ensures Describes(Append(w, session, event, limit).value.window,
                      WithHistory(h, session, History(h, session) + [event]))
  {
    assert SessionDescribed(SessionOf(w, session), |History(h, session)|);
    AppendKeeps(w, h, session, event, limit);
  }

  lemma {:induction false} HeardChain(a: Burst, b: Burst, next: nat)
    ensures Heard(Chain(a, b), next) == Heard(a, next) + Heard(b, next + |Logged(a)|)
  {
    hide *;
    ChainOpens(a, b);
    if a.Publish? {
      var n := next + 1 + |Logged(a.before)|;
      HeardChain(a.rest, b, n + |Logged(a.after)|);
      Unfold(a, next);
      Unfold(Chain(a, b), next);
      var x := Heard(a.before, next + 1) + [Row(next, a.event)] + Heard(a.after, n);
      Reassociate(x, Heard(a.rest, n + |Logged(a.after)|), Heard(b, next + |Logged(a)|));
    } else {
      QuietHeard(next);
      assert [] + Heard(b, next) == Heard(b, next);
    }
  }

  lemma QuietHeard(next: nat)
    ensures Heard(Quiet, next) == [] && Logged(Quiet) == []
  {
  }

  class LedgerBackedEventJournal {
    const ledger: SqliteRuntimeLedger

    constructor (ledger: SqliteRuntimeLedger)
      ensures this.ledger == ledger
    {
      this.ledger := ledger;
    }

    /** Appends, then serves the listeners: those ahead of the subscriber, the subscriber, the others. */
    method PublishBurst(session: string, b: Burst, sub: Subscription, ghost h: map<string, seq<Event>>)
      requires Describes(ledger.Window(), h) && ledger.maxEventsPerSession >= 1
      requires |History(h, session)| + |Logged(b)| < MAX_SAFE_INTEGER && sub.afterId <= |History(h, session)|
      modifies ledger`sessions, ledger`events, sub`pending, sub`delivered
      ensures Describes(ledger.Window(), WithHistory(h, session, History(h, session) + Logged(b)))
      ensures sub.pending == old(sub.pending) + (if sub.replaying then Heard(b, |History(h, session)| + 1) else [])
      ensures sub.delivered == old(sub.delivered) + (if sub.replaying then [] else Heard(b, |History(h, session)| + 1))
      decreases b
    {
      hide *;
      if b.Quiet? {
        NothingPublished(ledger.Window(), h, session);
        return;
      }
      ghost var past := History(h, session);
      ghost var h1 := WithHistory(h, session, past + [b.event]);
      Unfold(b, |past| + 1);
      AppendSucceeds(ledger.Window(), h, session, b.event, ledger.maxEventsPerSession);
      var id := ledger.AppendRuntimeEvent(session, b.event);
      HistoryOf(h, session, past + [b.event], past + [b.event] + Logged(b.before));
      PublishBurst(session, b.before, sub, h1);
      sub.OnEvent(Row(id.value, b.event));
      ghost var h2 := WithHistory(h, session, past + [b.event] + Logged(b.before));
      HistoryOf(h, session, past + [b.event] + Logged(b.before), past + [b.event] + Logged(b.before) + Logged(b.after));
      PublishBurst(session, b.after, sub, h2);
      ghost var h3 := WithHistory(h, session, past + [b.event] + Logged(b.before) + Logged(b.after));
      HistoryOf(h, session, past + [b.event] + Logged(b.before) + Logged(b.after),
                past + [b.event] + Logged(b.before) + Logged(b.after) + Logged(b.rest));
      PublishBurst(session, b.rest, sub, h3);
      AppendParts(past, [b.event], Logged(b.before), Logged(b.after), Logged(b.rest));
      if sub.replaying { AppendHeard(old(sub.pending), b, |past| + 1); } else { AppendHeard(old(sub.delivered), b, |past| + 1); }
    }

    /** The replay loop: each replayed row is delivered, and what its callback publishes is queued. */
    method ReplayRows(session: string, rows: seq<Row>, bursts: seq<Burst>, sub: Subscription,
                      ghost h: map<string, seq<Event>>)
      requires Describes(ledger.Window(), h) && ledger.maxEventsPerSession >= 1 && sub.replaying
      requires |History(h, session)| + |Logged(Published(bursts, |rows|))| < MAX_SAFE_INTEGER
      requires sub.afterId <= |History(h, session)|
      modifies ledger`sessions, ledger`events, sub`pending, sub`delivered
      ensures Describes(ledger.Window(), WithHistory(h, session, History(h, session) + Logged(Published(bursts, |rows|))))
      ensures sub.pending == old(sub.pending) + Heard(Published(bursts, |rows|), |History(h, session)| + 1)
      ensures sub.delivered == old(sub.delivered) + rows
    {
      hide *;
      var i, rest := 0, bursts;
      ghost var now, past := History(h, session), History(h, session);
      SameHistory(ledger.Window(), h, session);
      while i < |rows|
        invariant 0 <= i <= |rows| && |past| <= |now|
        invariant Describes(ledger.Window(), WithHistory(h, session, now))
        invariant now + Logged(Published(rest, |rows| - i)) == past + Logged(Published(bursts, |rows|))
        invariant sub.pending + Heard(Published(rest, |rows| - i), |now| + 1)
                  == old(sub.pending) + Heard(Published(bursts, |rows|), |past| + 1)
        invariant sub.delivered == old(sub.delivered) + rows[..i]
        invariant sub.replaying == old(sub.replaying)
      {
        sub.delivered := sub.delivered + [rows[i]];
        assert rows[..i] + [rows[i]] == rows[..i + 1];
        ghost var first, later := First(rest), Published(Rest(rest), |rows| - i - 1);
        QuietStep(rest, |rows| - i - 1, 0);
        LoggedChain(first, later);
        HeardChain(first, later, |now| + 1);
        HistoryOf(h, session, now, now + Logged(first));
        Reassociate(now, Logged(first), Logged(later));
        Reassociate(sub.pending, Heard(first, |now| + 1), Heard(later, |now + Logged(first)| + 1));
        PublishBurst(session, First(rest), sub, WithHistory(h, session, now));
        now := now + Logged(first);
        rest := Rest(rest);
        i := i + 1;
      }
      assert rows[..i] == rows;
      QuietStep(rest, 0, |now| + 1);
      assert now + [] == now && sub.pending + [] == sub.pending;
    }

    /** The drain loop over what was queued; its callbacks publish live. */
    method DrainPending(session: string, pending: seq<Row>, deliveredThrough: nat, bursts: seq<Burst>, sub: Subscription,
                        ghost h: map<string, seq<Event>>)
      requires Describes(ledger.Window(), h) && ledger.maxEventsPerSession >= 1 && !sub.replaying
      requires |History(h, session)| + |Logged(Published(bursts, Drained(pending, deliveredThrough)))| < MAX_SAFE_INTEGER
      requires sub.afterId <= |History(h, session)|
      modifies ledger`sessions, ledger`events, sub`pending, sub`delivered
      ensures Describes(ledger.Window(),
                        WithHistory(h, session,
                                    History(h, session) + Logged(Published(bursts, Drained(pending, deliveredThrough)))))
      ensures sub.delivered == old(sub.delivered) + Drain(pending, deliveredThrough, bursts, |History(h, session)| + 1)
    {
      hide *;
      var i, rest, through := 0, bursts, deliveredThrough;
      ghost var now, past := History(h, session), History(h, session);
      ghost var wanted := Logged(Published(bursts, Drained(pending, deliveredThrough)));
      SameHistory(ledger.Window(), h, session);
      assert pending[0..] == pending;
      while i < |pending|
        invariant 0 <= i <= |pending| && |past| <= |now|
        invariant Describes(ledger.Window(), WithHistory(h, session, now))
        invariant now + Logged(Published(rest, Drained(pending[i..], through))) == past + wanted
        invariant sub.delivered + Drain(pending[i..], through, rest, |now| + 1)
                  == old(sub.delivered) + Drain(pending, deliveredThrough, bursts, |past| + 1)
        invariant sub.replaying == old(sub.replaying)
      {
        DrainTurn(pending[i..], through, rest, |now| + 1);
        assert pending[i..][0] == pending[i] && pending[i..][1..] == pending[i + 1..];
        if pending[i].seqNo > through {
          ghost var first, later := First(rest), Published(Rest(rest), Drained(pending[i + 1..], pending[i].seqNo));
          QuietStep(rest, Drained(pending[i + 1..], pending[i].seqNo), 0);
          LoggedChain(first, later);
          HistoryOf(h, session, now, now + Logged(first));
          Reassociate(now, Logged(first), Logged(later));
          Reassociate4(sub.delivered, [pending[i]], Heard(first, |now| + 1),
                       Drain(pending[i + 1..], pending[i].seqNo, Rest(rest), |now + Logged(first)| + 1));
          sub.delivered := sub.delivered + [pending[i]];
          PublishBurst(session, First(rest), sub, WithHistory(h, session, now));
          now := now + Logged(first);
          rest := Rest(rest);
          through := pending[i].seqNo;
        }
        i := i + 1;
      }
      DrainTurn(pending[i..], through, rest, |now| + 1);
      QuietStep(rest, 0, |now| + 1);
      assert now + [] == now && sub.delivered + [] == sub.delivered;
    }

    /** Replays, then drains, then lets the rest of the script publish live. */
    method Splice(session: string, after: nat, rows: seq<Row>, script: Script, sub: Subscription,
                  ghost h: map<string, seq<Event>>)
      requires Describes(ledger.Window(), h) && ledger.maxEventsPerSession >= 1
      requires after <= |History(h, session)| && sub.afterId == after
      requires rows == Numbered(History(h, session)[after..], after + 1)
      requires sub.replaying && sub.pending == [] && sub.delivered == []
      requires |FinalHistory(History(h, session), after, script)| < MAX_SAFE_INTEGER
      modifies ledger`sessions, ledger`events, sub
      ensures sub.delivered == Delivered(History(h, session), after, script)
      ensures Describes(ledger.Window(), WithHistory(h, session, FinalHistory(History(h, session), after, script)))
    {
      hide *;
      ghost var past := History(h, session);
      ghost var more := Logged(Published(script.replay, |past| - after));
      ghost var queued := Heard(Published(script.replay, |past| - after), |past| + 1);
      ghost var inDrain := Logged(Published(script.drain, Drained(queued, |past|)));
      Definitions(past, after, script);
      NumberedLength(past[after..], after + 1);
      assert |past[after..]| == |past| - after;
      ReplayRows(session, rows, script.replay, sub, h);
      assert [] + queued == queued && [] + rows == rows;
      sub.replaying := false;
      HistoryOf(h, session, past + more, past + more + inDrain);
      DrainPending(session, sub.pending, after + |rows|, script.drain, sub, WithHistory(h, session, past + more));
      HistoryOf(h, session, past + more + inDrain, past + more + inDrain + Logged(script.live));
      PublishBurst(session, script.live, sub, WithHistory(h, session, past + more + inDrain));
      Reassociate(rows, Drain(queued, |past|, script.drain, |past| + 1 + |more|),
                  Heard(script.live, |past| + 1 + |more| + |inDrain|));
    }

    method SubscribeAfter(session: string, after: nat, script: Script, ghost h: map<string, seq<Event>>)
      returns (replay: Replayed, sub: Subscription)
      requires Describes(ledger.Window(), h) && ledger.maxEventsPerSession >= 1
      requires after <= |History(h, session)| ==>
                 |FinalHistory(History(h, session), after, script)| < MAX_SAFE_INTEGER
      modifies ledger`sessions, ledger`events
      ensures replay == Replay(old(ledger.Window()), session, after)
      ensures replay.Rows? ==> after <= |History(h, session)|
      ensures replay.Rows? ==> sub.delivered == Delivered(History(h, session), after, script)
      ensures replay.Rows? ==> Describes(ledger.Window(),
                                         WithHistory(h, session, FinalHistory(History(h, session), after, script)))
      ensures replay.Expired? ==> sub.delivered == [] && ledger.Window() == old(ledger.Window())
    {
      hide *;
      sub := new Subscription(after);
      replay := ledger.ReplayRuntimeEvents(session, after);
      ReplayIsExact(ledger.Window(), h, session, after);
      if replay.Rows? {
        Splice(session, after, replay.rows, script, sub, h);
      } else {
        sub.replaying := false;
      }
    }
  }

  lemma AppendParts<T>(p: seq<T>, a: seq<T>, b: seq<T>, c: seq<T>, d: seq<T>)
    ensures p + a + b + c + d == p + (a + b + c + d)
  {
  }

  lemma AppendHeard(p: seq<Row>, b: Burst, next: nat)
    requires b.Publish?
    ensures var n := next + 1 + |Logged(b.before)|;
            p + Heard(b.before, next + 1) + [Row(next, b.event)] + Heard(b.after, n) + Heard(b.rest, n + |Logged(b.after)|)
            == p + Heard(b, next)
  {
    hide *;
    var n := next + 1 + |Logged(b.before)|;
    Unfold(b, next);
    AppendParts(p, Heard(b.before, next + 1), [Row(next, b.event)], Heard(b.after, n), Heard(b.rest, n + |Logged(b.after)|));
  }

  lemma NothingPublished(w: Window, h: map<string, seq<Event>>, session: string)
    requires Describes(w, h)
    ensures Describes(w, WithHistory(h, session, History(h, session) + Logged(Quiet)))
    ensures Heard(Quiet, |History(h, session)| + 1) == []
  {
    SameHistory(w, h, session);
    assert History(h, session) + Logged(Quiet) == History(h, session);
  }

  lemma Reassociate4<T>(a: seq<T>, b: seq<T>, c: seq<T>, d: seq<T>)
    ensures a + (b + c + d) == ((a + b) + c) + d
  {
  }
}

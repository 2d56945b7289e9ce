/**
 Splicing durable replay onto live fan-out. Publications to the subscribed session form
 trees, because a listener may publish from inside its callback; ids are handed out when a
 publication starts, the subscriber hears of it when the fan-out reaches its callback.
 */
module LiveSplice {
  import opened Base
  import opened EventWindow

  /**
   A list of publications. `before`: published by listeners the fan-out serves first; `after`: published once
   ours was called; `rest`: the publications that follow this one.
   */
  datatype Burst = Quiet | Publish(event: Event, before: Burst, after: Burst, rest: Burst)

  /** What gets published from inside the replay callbacks, the drain callbacks and afterwards. */
  datatype Script = Script(replay: seq<Burst>, drain: seq<Burst>, live: Burst)

  // ---- ids and notifications -------------------------------------------------------------

  /** What a burst appends to the ledger, in order. */
  function Logged(b: Burst): seq<Event> {
    match b
    case Quiet => []
    case Publish(event, before, after, rest) => [event] + Logged(before) + Logged(after) + Logged(rest)
  }

  /** What the subscriber's callback hears, in order. */
  function Heard(b: Burst, next: nat): seq<Row> {
    match b
    case Quiet => []
    case Publish(event, before, after, rest) =>
      var n := next + 1 + |Logged(before)|;
      Heard(before, next + 1) + [Row(next, event)] + Heard(after, n) + Heard(rest, n + |Logged(after)|)
  }

  /** No listener served ahead of ours publishes from its callback. */
  predicate Plain(b: Burst) {
    match b
    case Quiet => true
    case Publish(_, before, after, rest) => before.Quiet? && Plain(after) && Plain(rest)
  }

  function Chain(a: Burst, b: Burst): Burst {
    match a
    case Quiet => b
    case Publish(event, before, after, rest) => Publish(event, before, after, Chain(rest, b))
  }

  // ---- delivery -----------------------------------------------------------------------------

  function First(scripts: seq<Burst>): Burst {
    if scripts == [] then Quiet else scripts[0]
  }

  function Rest(scripts: seq<Burst>): seq<Burst> {
    if scripts == [] then [] else scripts[1..]
  }

  /** Everything published from inside the first n callbacks. */
  function Published(scripts: seq<Burst>, n: nat): Burst {
    if n == 0 then Quiet else Chain(First(scripts), Published(Rest(scripts), n - 1))
  }

  /** The drain loop: stale entries are skipped, publications of its callbacks are delivered at once. */
  function Drain(pending: seq<Row>, through: nat, drain: seq<Burst>, next: nat): seq<Row> {
    if pending == [] then []
    else if pending[0].seqNo <= through then Drain(pending[1..], through, drain, next)
    else
      [pending[0]] + Heard(First(drain), next)
      + Drain(pending[1..], pending[0].seqNo, Rest(drain), next + |Logged(First(drain))|)
  }

  /** How many pending entries the loop delivers. */
  function Drained(pending: seq<Row>, through: nat): nat {
    if pending == [] then 0
    else if pending[0].seqNo <= through then Drained(pending[1..], through)
    else 1 + Drained(pending[1..], pending[0].seqNo)
  }

  /** All listener calls, in order, for a subscription after `after` to a session with `history`. */
  function Delivered(history: seq<Event>, after: nat, script: Script): seq<Row>
    requires after <= |history|
  {
    var inReplay := Published(script.replay, |history| - after);
    var pending := Heard(inReplay, |history| + 1);
    var next := |history| + 1 + |Logged(inReplay)|;
    var inDrain := Published(script.drain, Drained(pending, |history|));
    Numbered(history[after..], after + 1)
    + (Drain(pending, |history|, script.drain, next) + Heard(script.live, next + |Logged(inDrain)|))
  }

  /** The session's whole history once the script has run. */
  function FinalHistory(history: seq<Event>, after: nat, script: Script): seq<Event>
    requires after <= |history|
  {
    var inReplay := Published(script.replay, |history| - after);
    var inDrain := Published(script.drain, Drained(Heard(inReplay, |history| + 1), |history|));
    history + Logged(inReplay) + Logged(inDrain) + Logged(script.live)
  }

  /** Of the drain callbacks only the last may publish. */
  predicate QuietUntilLast(drain: seq<Burst>, n: nat) {
    if n == 0 then true
    else if n == 1 then Plain(First(drain))
    else First(drain).Quiet? && QuietUntilLast(Rest(drain), n - 1)
  }

  predicate Orderly(history: seq<Event>, after: nat, script: Script)
    requires after <= |history|
  {
    var inReplay := Published(script.replay, |history| - after);
    && Plain(inReplay)
    && QuietUntilLast(script.drain, |Logged(inReplay)|)
    && Plain(script.live)
  }

  // ---- lists -------------------------------------------------------------------------------------

  lemma SplitEqual<T>(a: seq<T>, b: seq<T>, c: seq<T>, d: seq<T>)
    requires |a| == |c|
    ensures a + b == c + d <==> a == c && b == d
  {
    if a + b == c + d {
      assert a == (a + b)[..|a|] && c == (c + d)[..|c|];
      assert b == (a + b)[|a|..] && d == (c + d)[|c|..];
    }
  }

  lemma NumberedConcat(a: seq<Event>, b: seq<Event>, from: nat)
    ensures Numbered(a + b, from) == Numbered(a, from) + Numbered(b, from + |a|)
  {
  }

  lemma NumberedParts(event: Event, a: seq<Event>, b: seq<Event>, c: seq<Event>, from: nat)
    ensures Numbered([event] + a + b + c, from)
            == [Row(from, event)] + Numbered(a, from + 1) + Numbered(b, from + 1 + |a|)
               + Numbered(c, from + 1 + |a| + |b|)
  {
    NumberedConcat([event] + a + b, c, from);
    NumberedConcat([event] + a, b, from);
    NumberedFirst(event, a, from);
  }

  lemma ChainOpens(a: Burst, b: Burst)
    ensures a.Quiet? ==> Chain(a, b) == b
    ensures a.Publish? ==> Chain(a, b) == Publish(a.event, a.before, a.after, Chain(a.rest, b))
  {
  }

  lemma Reassociate<T>(a: seq<T>, b: seq<T>, c: seq<T>)
    ensures a + (b + c) == (a + b) + c
  {
  }

  lemma {:induction false} LoggedChain(a: Burst, b: Burst)
    ensures Logged(Chain(a, b)) == Logged(a) + Logged(b)
  {
    hide *;
    ChainOpens(a, b);
    if a.Quiet? {
      NothingLogged();
      assert [] + Logged(b) == Logged(b);
    } else {
      LoggedChain(a.rest, b);
      UnfoldLogged(a);
      UnfoldLogged(Chain(a, b));
      Reassociate([a.event] + Logged(a.before) + Logged(a.after), Logged(a.rest), Logged(b));
    }
  }

  lemma NothingLogged()
    ensures Logged(Quiet) == []
  {
  }

  ghost predicate Faithful(rows: seq<Row>, events: seq<Event>, next: nat) {
    && |rows| == |events|
    && forall r :: r in rows ==> next <= r.seqNo < next + |events| && events[r.seqNo - next] == r.event
  }

  lemma FaithfulParts(x: seq<Row>, event: Event, y: seq<Row>, z: seq<Row>,
                      a: seq<Event>, b: seq<Event>, c: seq<Event>, next: nat)
    requires Faithful(x, a, next + 1) && Faithful(y, b, next + 1 + |a|) && Faithful(z, c, next + 1 + |a| + |b|)
    ensures Faithful(x + [Row(next, event)] + y + z, [event] + a + b + c, next)
  {
  }

  /** The definitions, one level deep. */
  lemma Unfold(b: Burst, next: nat)
    requires b.Publish?
    ensures Logged(b) == [b.event] + Logged(b.before) + Logged(b.after) + Logged(b.rest)
    ensures var n := next + 1 + |Logged(b.before)|;
            Heard(b, next) == Heard(b.before, next + 1) + [Row(next, b.event)] + Heard(b.after, n)
                              + Heard(b.rest, n + |Logged(b.after)|)
    ensures Plain(b) <==> b.before.Quiet? && Plain(b.after) && Plain(b.rest)
  {
    hide *;
    UnfoldLogged(b);
    UnfoldHeard(b, next);
    UnfoldPlain(b);
  }

  lemma UnfoldLogged(b: Burst)
    requires b.Publish?
    ensures Logged(b) == [b.event] + Logged(b.before) + Logged(b.after) + Logged(b.rest)
  {
  }

  lemma UnfoldHeard(b: Burst, next: nat)
    requires b.Publish?
    ensures var n := next + 1 + |Logged(b.before)|;
            Heard(b, next) == Heard(b.before, next + 1) + [Row(next, b.event)] + Heard(b.after, n)
                              + Heard(b.rest, n + |Logged(b.after)|)
  {
    hide Logged;
  }

  lemma UnfoldPlain(b: Burst)
    requires b.Publish?
    ensures Plain(b) <==> b.before.Quiet? && Plain(b.after) && Plain(b.rest)
  {
  }

  lemma QuietIsFaithful(next: nat)
    ensures Faithful(Heard(Quiet, next), Logged(Quiet), next)
  {
  }

  /** Each publication is heard of once, under its id and with its event. */
  lemma {:induction false} HeardIsFaithful(b: Burst, next: nat)
    ensures Faithful(Heard(b, next), Logged(b), next)
  {
    hide *;
    if b.Quiet? {
      QuietIsFaithful(next);
    } else {
      var n := next + 1 + |Logged(b.before)|;
      HeardIsFaithful(b.before, next + 1);
      HeardIsFaithful(b.after, n);
      HeardIsFaithful(b.rest, n + |Logged(b.after)|);
      FaithfulParts(Heard(b.before, next + 1), b.event, Heard(b.after, n), Heard(b.rest, n + |Logged(b.after)|),
                    Logged(b.before), Logged(b.after), Logged(b.rest), next);
      Unfold(b, next);
    }
  }

  lemma HeardLength(b: Burst, next: nat)
    ensures |Heard(b, next)| == |Logged(b)|
  {
    HeardIsFaithful(b, next);
  }

  lemma NumberedLength(events: seq<Event>, from: nat)
    ensures |Numbered(events, from)| == |events|
  {
  }

  /** Heard in id order exactly when no earlier listener publishes from inside the fan-out. */
  lemma {:induction false} HeardInOrder(b: Burst, next: nat)
    ensures Heard(b, next) == Numbered(Logged(b), next) <==> Plain(b)
  {
    hide *;
    if b.Quiet? {
      QuietInOrder(next);
    } else {
      UnfoldPlain(b);
      if b.before.Quiet? {
        var n := next + 1 + |Logged(b.before)|;
        HeardInOrder(b.after, n);
        HeardInOrder(b.rest, n + |Logged(b.after)|);
        OrderOfParts(b, next);
      } else {
        OutOfOrder(b, next);
      }
    }
  }

  lemma QuietInOrder(next: nat)
    ensures Heard(Quiet, next) == Numbered(Logged(Quiet), next) && Plain(Quiet)
  {
  }

  // Somebody ahead publishes: the first row heard is not the first one logged.
  lemma OutOfOrder(b: Burst, next: nat)
    requires b.Publish? && b.before.Publish?
    ensures Heard(b, next) != Numbered(Logged(b), next)
  {
    hide *;
    var n := next + 1 + |Logged(b.before)|;
    var m := n + |Logged(b.after)|;
    Unfold(b, next);
    NumberedParts(b.event, Logged(b.before), Logged(b.after), Logged(b.rest), next);
    HeardLater(b.before, next + 1);
    StartsDifferently(Heard(b.before, next + 1), Row(next, b.event), Heard(b.after, n), Heard(b.rest, m),
                      Numbered(Logged(b.before), next + 1), Numbered(Logged(b.after), n), Numbered(Logged(b.rest), m));
  }

  // With nobody ahead, a publication is heard in order when what follows it is.
  lemma OrderOfParts(b: Burst, next: nat)
    requires b.Publish? && b.before.Quiet?
    ensures var n := next + 1 + |Logged(b.before)|;
            var m := n + |Logged(b.after)|;
            Heard(b, next) == Numbered(Logged(b), next) <==>
              Heard(b.after, n) == Numbered(Logged(b.after), n) && Heard(b.rest, m) == Numbered(Logged(b.rest), m)
  {
    hide *;
    var n := next + 1 + |Logged(b.before)|;
    var m := n + |Logged(b.after)|;
    Unfold(b, next);
    NumberedParts(b.event, Logged(b.before), Logged(b.after), Logged(b.rest), next);
    HeardLength(b.after, n);
    NumberedLength(Logged(b.after), n);
    NothingFirst(next);
    InOrderParts(Row(next, b.event), Heard(b.after, n), Heard(b.rest, m), Numbered(Logged(b.after), n), Numbered(Logged(b.rest), m));
  }

  lemma NothingFirst(next: nat)
    ensures Heard(Quiet, next + 1) == [] && Logged(Quiet) == [] && Numbered([], next + 1) == []
  {
  }

  lemma HeardLater(b: Burst, next: nat)
    requires b.Publish?
    ensures |Heard(b, next)| > 0 && Heard(b, next)[0].seqNo >= next
  {
    HeardIsFaithful(b, next);
    assert Heard(b, next)[0] in Heard(b, next);
  }

  lemma StartsDifferently(x: seq<Row>, r: Row, y: seq<Row>, z: seq<Row>, nx: seq<Row>, ny: seq<Row>, nz: seq<Row>)
    requires |x| > 0 && x[0].seqNo > r.seqNo
    ensures x + [r] + y + z != [r] + nx + ny + nz
  {
    assert (x + [r] + y + z)[0] == x[0];
    assert ([r] + nx + ny + nz)[0] == r;
  }

  lemma InOrderParts<T>(first: T, y: seq<T>, z: seq<T>, ny: seq<T>, nz: seq<T>)
    requires |y| == |ny|
    ensures [] + [first] + y + z == [first] + [] + ny + nz <==> y == ny && z == nz
  {
    assert [] + [first] + y + z == [first] + (y + z);
    assert [first] + [] + ny + nz == [first] + (ny + nz);
    SplitEqual([first], y + z, [first], ny + nz);
    SplitEqual(y, z, ny, nz);
  }

  // ---- the drain loop -----------------------------------------------------------------------------

  lemma {:induction false} DrainedAtMost(pending: seq<Row>, through: nat)
    ensures Drained(pending, through) <= |pending|
  {
    if pending != [] {
      DrainedAtMost(pending[1..], through);
      DrainedAtMost(pending[1..], pending[0].seqNo);
    }
  }

  /** If nothing is skipped, each entry is above the one before it. */
  lemma {:induction false} NothingSkippedAscends(pending: seq<Row>, through: nat)
    requires Drained(pending, through) == |pending|
    ensures forall i :: 0 <= i < |pending| ==> through + 1 + i <= pending[i].seqNo
    ensures forall i :: 0 <= i < |pending| ==> pending[i].seqNo + (|pending| - 1 - i) <= pending[|pending| - 1].seqNo
  {
    if pending != [] {
      DrainedAtMost(pending[1..], through);
      DrainedAtMost(pending[1..], pending[0].seqNo);
      NothingSkippedAscends(pending[1..], pending[0].seqNo);
      forall i | 0 <= i < |pending|
        ensures through + 1 + i <= pending[i].seqNo
        ensures pending[i].seqNo + (|pending| - 1 - i) <= pending[|pending| - 1].seqNo
      {
        if i > 0 { assert pending[i] == pending[1..][i - 1]; }
        if |pending| > 1 { assert pending[1] == pending[1..][0]; }
      }
    }
  }

  /** If nothing is skipped, the pending entries were queued in id order without a gap. */
  lemma NothingSkippedMeansNumbered(pending: seq<Row>, events: seq<Event>, through: nat)
    requires Faithful(pending, events, through + 1) && Drained(pending, through) == |pending|
    ensures pending == Numbered(events, through + 1)
  {
    hide *;
    NothingSkippedAscends(pending, through);
    FaithfulLength(pending, events, through + 1);
    NumberedAt(events, through + 1);
    forall i | 0 <= i < |pending| ensures pending[i] == Row(through + 1 + i, events[i]) {
      FaithfulAt(pending, events, through + 1, i);
      FaithfulAt(pending, events, through + 1, |pending| - 1);
    }
  }

  lemma FaithfulLength(rows: seq<Row>, events: seq<Event>, next: nat)
    requires Faithful(rows, events, next)
    ensures |rows| == |events|
  {
  }

  lemma FaithfulAt(rows: seq<Row>, events: seq<Event>, next: nat, i: nat)
    requires Faithful(rows, events, next) && i < |rows|
    ensures next <= rows[i].seqNo < next + |events| && events[rows[i].seqNo - next] == rows[i].event
  {
    assert rows[i] in rows;
  }

  lemma NumberedAt(events: seq<Event>, from: nat)
    ensures |Numbered(events, from)| == |events|
    ensures forall i :: 0 <= i < |events| ==> Numbered(events, from)[i] == Row(from + i, events[i])
  {
  }

  lemma {:induction false} DrainedNumbered(events: seq<Event>, through: nat)
    ensures Drained(Numbered(events, through + 1), through) == |events|
  {
    if events != [] {
      assert Numbered(events, through + 1)[1..] == Numbered(events[1..], through + 2);
      DrainedNumbered(events[1..], through + 1);
    }
  }

  /** The loop's definitions, one turn deep. */
  lemma DrainTurn(pending: seq<Row>, through: nat, drain: seq<Burst>, next: nat)
    ensures pending == [] ==> Drain(pending, through, drain, next) == [] && Drained(pending, through) == 0
    ensures pending != [] && pending[0].seqNo <= through ==>
              Drain(pending, through, drain, next) == Drain(pending[1..], through, drain, next)
              && Drained(pending, through) == Drained(pending[1..], through)
    ensures pending != [] && pending[0].seqNo > through ==>
              Drain(pending, through, drain, next)
              == [pending[0]] + Heard(First(drain), next)
                 + Drain(pending[1..], pending[0].seqNo, Rest(drain), next + |Logged(First(drain))|)
              && Drained(pending, through) == 1 + Drained(pending[1..], pending[0].seqNo)
  {
  }

  lemma {:induction false} DrainLength(pending: seq<Row>, through: nat, drain: seq<Burst>, next: nat)
    ensures |Drain(pending, through, drain, next)|
            == Drained(pending, through) + |Logged(Published(drain, Drained(pending, through)))|
    decreases |pending|
  {
    hide *;
    DrainTurn(pending, through, drain, next);
    if pending == [] {
      QuietStep(drain, 0, next);
    } else if pending[0].seqNo <= through {
      DrainLength(pending[1..], through, drain, next);
    } else {
      var n := Drained(pending[1..], pending[0].seqNo);
      DrainLength(pending[1..], pending[0].seqNo, Rest(drain), next + |Logged(First(drain))|);
      HeardLength(First(drain), next);
      QuietStep(drain, n, next);
      LoggedChain(First(drain), Published(Rest(drain), n));
    }
  }

  /** One turn of the drain loop over consecutive entries. */
  lemma DrainStep(event: Event, events: seq<Event>, through: nat, drain: seq<Burst>, next: nat)
    ensures Drain(Numbered([event] + events, through + 1), through, drain, next)
            == [Row(through + 1, event)] + Heard(First(drain), next)
               + Drain(Numbered(events, through + 2), through + 1, Rest(drain), next + |Logged(First(drain))|)
  {
    NumberedFirst(event, events, through + 1);
    var pending := [Row(through + 1, event)] + Numbered(events, through + 2);
    assert pending[1..] == Numbered(events, through + 2);
  }

  lemma QuietStep(drain: seq<Burst>, n: nat, next: nat)
    ensures Published(drain, n + 1) == Chain(First(drain), Published(Rest(drain), n))
    ensures n > 0 ==> (QuietUntilLast(drain, n + 1) <==> First(drain).Quiet? && QuietUntilLast(Rest(drain), n))
    ensures QuietUntilLast(drain, 1) <==> Plain(First(drain))
    ensures Published(drain, 0) == Quiet && QuietUntilLast(drain, 0)
    ensures Logged(Quiet) == [] && Heard(Quiet, next) == []
    ensures Numbered([], next) == [] && Drain([], next, drain, n) == []
  {
  }

  /** A callback before the last publishes: its event arrives ahead of the next pending one. */
  lemma DrainOvertaken(event: Event, events: seq<Event>, through: nat, drain: seq<Burst>, more: seq<Event>)
    requires |events| >= 1 && First(drain).Publish?
    ensures Drain(Numbered([event] + events, through + 1), through, drain, through + 2 + |events|)
            != Numbered([event] + events + more, through + 1)
  {
    hide *;
    var next := through + 2 + |events|;
    HeardLater(First(drain), next);
    DrainStep(event, events, through, drain, next);
    SecondDiffers([Row(through + 1, event)], Heard(First(drain), next),
                  Drain(Numbered(events, through + 2), through + 1, Rest(drain), next + |Logged(First(drain))|),
                  event, events, more, through);
  }

  lemma SecondDiffers(x: seq<Row>, y: seq<Row>, z: seq<Row>, event: Event, events: seq<Event>, more: seq<Event>, through: nat)
    requires |x| == 1 && |y| > 0 && |events| >= 1 && y[0].seqNo > through + 2
    ensures x + y + z != Numbered([event] + events + more, through + 1)
  {
    assert (x + y + z)[1] == y[0];
    assert Numbered([event] + events + more, through + 1)[1].seqNo == through + 2;
  }

  /** Draining consecutive entries delivers consecutive ids exactly when only the last callback publishes, in order. */
  lemma {:induction false} DrainOrdered(events: seq<Event>, through: nat, drain: seq<Burst>)
    ensures Drain(Numbered(events, through + 1), through, drain, through + 1 + |events|)
            == Numbered(events + Logged(Published(drain, |events|)), through + 1)
            <==> QuietUntilLast(drain, |events|)
    decreases |events|
  {
    hide *;
    if events == [] {
      DrainNothing(through, drain);
    } else {
      var event, tail := events[0], events[1..];
      var next, n := through + 1 + |events|, |tail|;
      assert events == [event] + tail;
      QuietStep(drain, n, next);
      var later := Published(Rest(drain), n);
      LoggedChain(First(drain), later);
      DrainStep(event, tail, through, drain, next);
      var row := [Row(through + 1, event)];
      if tail == [] {
        QuietStep(Rest(drain), n, next);
        DrainEmpty(through, Rest(drain), next + |Logged(First(drain))|);
        HeardInOrder(First(drain), next);
        NumberedFirst(event, Logged(First(drain)), through + 1);
        SplitEqual(row, Heard(First(drain), next), row, Numbered(Logged(First(drain)), next));
        assert events + (Logged(First(drain)) + []) == [event] + Logged(First(drain));
        assert row + Heard(First(drain), next) + [] == row + Heard(First(drain), next);
      } else if First(drain).Quiet? {
        DrainOrdered(tail, through + 1, Rest(drain));
        NumberedFirst(event, tail + Logged(later), through + 1);
        assert events + ([] + Logged(later)) == [event] + (tail + Logged(later));
        SplitEqual(row, Drain(Numbered(tail, through + 2), through + 1, Rest(drain), next),
                   row, Numbered(tail + Logged(later), through + 2));
        assert row + [] + Drain(Numbered(tail, through + 2), through + 1, Rest(drain), next)
            == row + Drain(Numbered(tail, through + 2), through + 1, Rest(drain), next);
      } else {
        DrainOvertaken(event, tail, through, drain, Logged(First(drain)) + Logged(later));
      }
    }
  }

  lemma DrainNothing(through: nat, drain: seq<Burst>)
    ensures Drain(Numbered([], through + 1), through, drain, through + 1) == []
    ensures Numbered([] + Logged(Published(drain, 0)), through + 1) == [] && QuietUntilLast(drain, 0)
  {
  }

  lemma DrainEmpty(through: nat, drain: seq<Burst>, next: nat)
    ensures Drain(Numbered([], through + 2), through + 1, drain, next) == []
  {
  }

  // ---- the theorem -----------------------------------------------------------------------------------

  lemma CutExpected(history: seq<Event>, after: nat, more: seq<Event>, inDrain: seq<Event>, live: seq<Event>)
    requires after <= |history|
    ensures Numbered((history + more + inDrain + live)[after..], after + 1)
            == Numbered(history[after..], after + 1)
               + (Numbered(more + inDrain, |history| + 1) + Numbered(live, |history| + 1 + |more| + |inDrain|))
  {
    hide *;
    assert (history + more + inDrain + live)[after..] == history[after..] + ((more + inDrain) + live);
    NumberedConcat(history[after..], (more + inDrain) + live, after + 1);
    NumberedConcat(more + inDrain, live, |history| + 1);
  }

  /** The drain delivers what was published meanwhile, completely and in order, exactly under the two conditions. */
  lemma DrainCompares(inReplay: Burst, h: nat, drain: seq<Burst>)
    ensures var pending, more := Heard(inReplay, h + 1), Logged(inReplay);
            var inDrain := Logged(Published(drain, Drained(pending, h)));
            var drained := Drain(pending, h, drain, h + 1 + |more|);
            && |drained| <= |more + inDrain|
            && (|drained| == |more + inDrain| <==> Plain(inReplay))
            && (drained == Numbered(more + inDrain, h + 1) <==> Plain(inReplay) && QuietUntilLast(drain, |more|))
  {
    hide *;
    var pending, more := Heard(inReplay, h + 1), Logged(inReplay);
    var inDrain := Logged(Published(drain, Drained(pending, h)));
    HeardIsFaithful(inReplay, h + 1);
    HeardLength(inReplay, h + 1);
    DrainedAtMost(pending, h);
    DrainLength(pending, h, drain, h + 1 + |more|);
    HeardInOrder(inReplay, h + 1);
    DrainedNumbered(more, h);
    NumberedLength(more + inDrain, h + 1);
    if Drained(pending, h) == |pending| {
      NothingSkippedMeansNumbered(pending, more, h);
      DrainOrdered(more, h, drain);
    }
  }

  lemma Definitions(history: seq<Event>, after: nat, script: Script)
    requires after <= |history|
    ensures var h := |history|;
            var inReplay := Published(script.replay, h - after);
            var pending, more := Heard(inReplay, h + 1), Logged(inReplay);
            var inDrain, live := Logged(Published(script.drain, Drained(pending, h))), Logged(script.live);
            var next := h + 1 + |more|;
            && Delivered(history, after, script)
               == Numbered(history[after..], after + 1)
                  + (Drain(pending, h, script.drain, next) + Heard(script.live, next + |inDrain|))
            && FinalHistory(history, after, script) == history + more + inDrain + live
            && (Orderly(history, after, script)
                <==> Plain(inReplay) && QuietUntilLast(script.drain, |more|) && Plain(script.live))
  {
    hide Published, Heard, Logged, Drained, Drain, Plain, QuietUntilLast, Numbered;
  }

  /**
   The listener gets every event of the session after the cursor exactly once in ascending order, events published
   from inside the replay callbacks included, if and only if no listener served ahead of it publishes from inside
   a fan-out and no drain callback but the last publishes.
   */
  lemma SpliceIsExact(history: seq<Event>, after: nat, script: Script)
    requires after <= |history|
    ensures Delivered(history, after, script) == Numbered(FinalHistory(history, after, script)[after..], after + 1)
            <==> Orderly(history, after, script)
  {
    hide *;
    var h := |history|;
    var inReplay := Published(script.replay, h - after);
    var pending, more := Heard(inReplay, h + 1), Logged(inReplay);
    var inDrain, live := Logged(Published(script.drain, Drained(pending, h))), Logged(script.live);
    var next := h + 1 + |more|;
    var drained, told := Drain(pending, h, script.drain, next), Heard(script.live, next + |inDrain|);
    var replayed := Numbered(history[after..], after + 1);
    Definitions(history, after, script);
    var expected, expectedLive := Numbered(more + inDrain, h + 1), Numbered(live, next + |inDrain|);
    CutExpected(history, after, more, inDrain, live);
    DrainCompares(inReplay, h, script.drain);
    HeardInOrder(script.live, next + |inDrain|);
    HeardLength(script.live, next + |inDrain|);
    NumberedLength(more + inDrain, h + 1);
    NumberedLength(live, next + |inDrain|);
    SplitEqual(replayed, drained + told, replayed, expected + expectedLive);
    if |drained| == |expected| { SplitEqual(drained, told, expected, expectedLive); }
  }

  // ---- nothing lost, nothing twice -----------------------------------------------------------------------

  function Bag(rows: seq<Row>): multiset<Row> { multiset(rows) }

  lemma BagConcat(a: seq<Row>, b: seq<Row>)
    ensures Bag(a + b) == Bag(a) + Bag(b)
  {
  }

  lemma BagOfThree(a: seq<Row>, b: seq<Row>, c: seq<Row>)
    ensures Bag(a + b + c) == Bag(a) + Bag(b) + Bag(c)
  {
    hide *;
    BagConcat(a + b, c);
    BagConcat(a, b);
  }

  lemma BagOfFour(a: seq<Row>, b: seq<Row>, c: seq<Row>, d: seq<Row>)
    ensures Bag(a + b + c + d) == Bag(a) + Bag(b) + Bag(c) + Bag(d)
  {
    hide *;
    BagConcat(a + b + c, d);
    BagOfThree(a, b, c);
  }

  lemma DifferentSizes(a: seq<Row>, b: seq<Row>)
    requires |a| != |b|
    ensures Bag(a) != Bag(b)
  {
    assert |Bag(a)| == |a| && |Bag(b)| == |b|;
  }

  lemma {:induction false} HeardPermutes(b: Burst, next: nat)
    ensures Bag(Heard(b, next)) == Bag(Numbered(Logged(b), next))
  {
    hide *;
    if b.Quiet? {
      QuietStep([], 0, next);
    } else {
      var n := next + 1 + |Logged(b.before)|;
      var m := n + |Logged(b.after)|;
      HeardPermutes(b.before, next + 1);
      HeardPermutes(b.after, n);
      HeardPermutes(b.rest, m);
      Unfold(b, next);
      BagOfFour(Heard(b.before, next + 1), [Row(next, b.event)], Heard(b.after, n), Heard(b.rest, m));
      NumberedParts(b.event, Logged(b.before), Logged(b.after), Logged(b.rest), next);
      BagOfFour([Row(next, b.event)], Numbered(Logged(b.before), next + 1), Numbered(Logged(b.after), n),
                Numbered(Logged(b.rest), m));
    }
  }

  lemma {:induction false} DrainPermutes(events: seq<Event>, through: nat, drain: seq<Burst>, next: nat)
    ensures Bag(Drain(Numbered(events, through + 1), through, drain, next))
            == Bag(Numbered(events, through + 1)) + Bag(Numbered(Logged(Published(drain, |events|)), next))
    decreases |events|
  {
    hide *;
    if events == [] {
      EmptyBags(through, drain, next);
    } else {
      var event, tail := events[0], events[1..];
      assert events == [event] + tail;
      var inFirst, later := Logged(First(drain)), Published(Rest(drain), |tail|);
      var m := next + |inFirst|;
      DrainStep(event, tail, through, drain, next);
      NumberedFirst(event, tail, through + 1);
      DrainPermutes(tail, through + 1, Rest(drain), m);
      HeardPermutes(First(drain), next);
      BagOfThree([Row(through + 1, event)], Heard(First(drain), next),
                 Drain(Numbered(tail, through + 2), through + 1, Rest(drain), m));
      BagConcat([Row(through + 1, event)], Numbered(tail, through + 2));
      QuietStep(drain, |tail|, next);
      LoggedChain(First(drain), later);
      NumberedConcat(inFirst, Logged(later), next);
      BagConcat(Numbered(inFirst, next), Numbered(Logged(later), m));
    }
  }

  lemma EmptyBags(through: nat, drain: seq<Burst>, next: nat)
    ensures Bag(Drain(Numbered([], through + 1), through, drain, next)) == multiset{}
    ensures Bag(Numbered([], through + 1)) == multiset{} && Bag(Numbered(Logged(Published(drain, 0)), next)) == multiset{}
  {
  }

  /**
   Whatever the drain and live callbacks publish, no event is lost or delivered twice if and only if no listener
   served ahead of this one publishes while the replay loop runs.
   */
  lemma NothingLostOrRepeated(history: seq<Event>, after: nat, script: Script)
    requires after <= |history|
    ensures Bag(Delivered(history, after, script))
            == Bag(Numbered(FinalHistory(history, after, script)[after..], after + 1))
            <==> Plain(Published(script.replay, |history| - after))
  {
    hide *;
    var h := |history|;
    var inReplay := Published(script.replay, h - after);
    var pending, more := Heard(inReplay, h + 1), Logged(inReplay);
    var inDrain, live := Logged(Published(script.drain, Drained(pending, h))), Logged(script.live);
    var next := h + 1 + |more|;
    var drained, told := Drain(pending, h, script.drain, next), Heard(script.live, next + |inDrain|);
    var replayed := Numbered(history[after..], after + 1);
    Definitions(history, after, script);
    var expected, expectedLive := Numbered(more + inDrain, h + 1), Numbered(live, next + |inDrain|);
    CutExpected(history, after, more, inDrain, live);
    DrainCompares(inReplay, h, script.drain);
    HeardLength(script.live, next + |inDrain|);
    NumberedLength(more + inDrain, h + 1);
    NumberedLength(live, next + |inDrain|);
    if Plain(inReplay) {
      HeardInOrder(inReplay, h + 1);
      DrainedNumbered(more, h);
      DrainPermutes(more, h, script.drain, next);
      NumberedConcat(more, inDrain, h + 1);
      HeardPermutes(script.live, next + |inDrain|);
      BagConcat(Numbered(more, h + 1), Numbered(inDrain, next));
      BagConcat(drained, told);
      BagConcat(expected, expectedLive);
      BagConcat(replayed, drained + told);
      BagConcat(replayed, expected + expectedLive);
    } else {
      DifferentSizes(replayed + (drained + told), replayed + (expected + expectedLive));
    }
  }

  /** The replay callback publishes x, and a listener served ahead of the subscriber answers x by publishing y. */
  function Overtaken(x: Event, y: Event): Script {
    Script([Publish(x, Publish(y, Quiet, Quiet, Quiet), Quiet, Quiet)], [], Quiet)
  }

  /**
   What it takes to break the splice: one replayed event e, and one such listener. The subscriber hears of y first,
   and then takes x, which has the smaller id, for one already delivered. Event 2 is lost.
   */
  lemma ReentrantListenerLosesAnEvent(e: Event, x: Event, y: Event)
    ensures FinalHistory([e], 0, Overtaken(x, y)) == [e, x, y]
    ensures Delivered([e], 0, Overtaken(x, y)) == [Row(1, e), Row(3, y)]
    ensures !Orderly([e], 0, Overtaken(x, y))
  {
    var inner, script := Publish(y, Quiet, Quiet, Quiet), Overtaken(x, y);
    var outer := Publish(x, inner, Quiet, Quiet);
    assert script.replay == [outer] && script.replay[1..] == [];
    assert Published([outer], 1) == outer by { assert Chain(Quiet, Quiet) == Quiet && Chain(outer, Quiet) == outer; }
    assert Logged(inner) == [y] && Heard(inner, 3) == [Row(3, y)];
    assert Logged(outer) == [x, y] && Heard(outer, 2) == [Row(3, y), Row(2, x)];
    OvertakenDrain(x, y);
    assert Numbered([e][0..], 1) == [Row(1, e)];
    assert Published([], 1) == Quiet by { assert Published(Rest([]), 0) == Quiet; }
  }

  lemma OvertakenDrain(x: Event, y: Event)
    ensures var pending := [Row(3, y), Row(2, x)];
            Drain(pending, 1, [], 4) == [Row(3, y)] && Drained(pending, 1) == 1
  {
    var pending, late := [Row(3, y), Row(2, x)], [Row(2, x)];
    assert pending[1..] == late && late[1..] == [];
    assert Drain(late[1..], 3, [], 4) == [] && Drained(late[1..], 3) == 0;
    assert Heard(First([]), 4) == [] && Rest([]) == [];
  }
}

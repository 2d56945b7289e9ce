/**
 Why recorded answers reach joined calls only under one arbiter per session: a run in which two
 arbiters serve one.
 */
module ArbiterDoubled {
  import opened Base
  import opened ReceiptTables
  import opened ArbiterModel
  import opened ArbiterWorld
  import opened ArbiterReplay

  function Asking(expectedRevision: int): Request {
    Request("k", "f", expectedRevision, false, false, Control, false, false)
  }

  const CALM := Surroundings(false, Holds, false, Undefined)
  const KEY := Ref("s", "d", "k")

  // The first arbiter refuses a stale submission; the second one admits the same key and completes it.
  function Doubled(): seq<Action> {
    [OpenArbiter("s", "d", 0), OpenArbiter("s", "d", 0),
     Run(0, DoSubmit(Asking(7), true, Undefined)), Run(0, DoBegin(CALM)),
     Run(1, DoSubmit(Asking(0), true, Undefined)), Run(1, DoBegin(CALM)), Run(1, DoConsume(0)),
     Run(1, DoFinish(0, false, Body("done"), true, Undefined))]
  }

  function Holding(tasks: seq<Task>, clock: nat, turn: nat, active: int): Arbiter {
    Arbiter("s", "d", clock, tasks, turn, 0, 0, if tasks == [] then map[] else map["k" := 0], active, {})
  }

  function Ledger(revision: nat, receipts: map<Ref, Receipt>): Tables {
    Tables(map["s" := SessionRow(revision, 1, 1)], receipts)
  }

  function Both(t: Tables, first: Arbiter, second: Arbiter, owner: map<Ref, Owner>, log: seq<Execution>): World {
    World(t, map[0 := first, 1 := second], 2, owner, log)
  }

  lemma BothOpened()
    ensures var w := Boot(Tables(map[], map[]));
            && Legal(w, Doubled()[..2])
            && After(w, Doubled()[..2]) == Both(Ledger(0, map[]), Holding([], 0, 0, 0), Holding([], 0, 0, 0), map[], [])
  {
    var w := Boot(Tables(map[], map[]));
    var open := OpenArbiter("s", "d", 0);
    var w1 := Next(w, open);
    assert w1 == World(Ledger(0, map[]), map[0 := Holding([], 0, 0, 0)], 1, map[], []);
    assert Next(w1, open) == Both(Ledger(0, map[]), Holding([], 0, 0, 0), Holding([], 0, 0, 0), map[], []);
    OneAction(w1, open);
    Onward(w, open, [open]);
    assert Doubled()[..2] == [open] + [open];
  }

  lemma OneAction(w: World, act: Action)
    requires Enabled(w, act)
    ensures Legal(w, [act]) && After(w, [act]) == Next(w, act)
  {
    assert [act][1..] == [];
  }

  lemma Onward(w: World, act: Action, acts: seq<Action>)
    requires Enabled(w, act) && Legal(Next(w, act), acts)
    ensures Legal(w, [act] + acts) && After(w, [act] + acts) == After(Next(w, act), acts)
  {
    assert ([act] + acts)[0] == act && ([act] + acts)[1..] == acts;
  }

  lemma {:induction false} RunsJoin(w: World, acts: seq<Action>, more: seq<Action>)
    requires Legal(w, acts) && Legal(After(w, acts), more)
    ensures Legal(w, acts + more) && After(w, acts + more) == After(After(w, acts), more)
    decreases |acts|
  {
    hide *;
    if acts == [] {
      NoActions(w);
      assert acts + more == more && acts == [];
    } else {
      RunOpens(w, acts);
      RunsJoin(Next(w, acts[0]), acts[1..], more);
      Onward(w, acts[0], acts[1..] + more);
      assert acts + more == [acts[0]] + (acts[1..] + more);
    }
  }

  lemma NoActions(w: World)
    ensures Legal(w, []) && After(w, []) == w
  {
  }

  lemma RunOpens(w: World, acts: seq<Action>)
    requires acts != [] && Legal(w, acts)
    ensures Enabled(w, acts[0]) && Legal(Next(w, acts[0]), acts[1..])
    ensures After(w, acts) == After(Next(w, acts[0]), acts[1..])
  {
  }

  lemma Submitted(expectedRevision: int)
    ensures Submit(Holding([], 0, 0, 0), Asking(expectedRevision), true, Undefined).0
         == Holding([Task(Asking(expectedRevision), 0, Queued)], 0, 0, 0)
  {
    var b := Submit(Holding([], 0, 0, 0), Asking(expectedRevision), true, Undefined).0;
    assert b.receipts == map["k" := 0];
    assert b.tasks == [Task(Asking(expectedRevision), 0, Queued)];
  }

  lemma KeyOf(a: Arbiter, expectedRevision: int)
    requires a.session == "s" && a.domain == "d"
    ensures RefOf(a, Asking(expectedRevision)) == KEY
  {
  }

  lemma AdmittedFirst(t: Tables, u: Tables)
    requires t == Ledger(0, map[]) && u == Ledger(1, map[KEY := Receipt("f", Admitted, 1, None)])
    ensures AdmitMutation(t, KEY, "f") == (u, AdmittedAt(1))
  {
    assert Inserted(t, KEY, "f").receipts == u.receipts;
    assert Inserted(t, KEY, "f").sessions == u.sessions;
  }

  function Refusing(): Arbiter {
    Holding([Task(Asking(7), 0, Refused(Conflict(0)))], 0, 1, 0)
  }

  lemma FirstRefuses()
    ensures var w := Both(Ledger(0, map[]), Holding([], 0, 0, 0), Holding([], 0, 0, 0), map[], []);
            && Legal(w, Doubled()[2..4])
            && After(w, Doubled()[2..4]) == Both(Ledger(0, map[]), Refusing(), Holding([], 0, 0, 0), map[], [])
  {
    var t, none := Ledger(0, map[]), Holding([], 0, 0, 0);
    var w := Both(t, none, none, map[], []);
    var asked, begun := Doubled()[2], Doubled()[3];
    var queued := Holding([Task(Asking(7), 0, Queued)], 0, 0, 0);
    Submitted(7);
    assert Take(queued, t, begun.step).0.tasks == Refusing().tasks;
    assert Next(w, asked) == Both(t, queued, none, map[], []);
    assert Next(Both(t, queued, none, map[], []), begun) == Both(t, Refusing(), none, map[], []);
    OneAction(Next(w, asked), begun);
    Onward(w, asked, [begun]);
    assert Doubled()[2..4] == [asked] + [begun];
  }

  lemma SecondAdmits()
    ensures var w := Both(Ledger(0, map[]), Refusing(), Holding([], 0, 0, 0), map[], []);
            var t := Ledger(1, map[KEY := Receipt("f", Admitted, 1, None)]);
            && Legal(w, Doubled()[4..6])
            && After(w, Doubled()[4..6]) ==
                 Both(t, Refusing(), Holding([Task(Asking(0), 0, Accepted(1))], 1, 1, 1), map[KEY := Owner(1, 0)], [])
  {
    var t, u := Ledger(0, map[]), Ledger(1, map[KEY := Receipt("f", Admitted, 1, None)]);
    var none, queued := Holding([], 0, 0, 0), Holding([Task(Asking(0), 0, Queued)], 0, 0, 0);
    var accepted := Holding([Task(Asking(0), 0, Accepted(1))], 1, 1, 1);
    var w := Both(t, Refusing(), none, map[], []);
    var asked, begun := Doubled()[4], Doubled()[5];
    Submitted(0);
    KeyOf(queued, 0);
    AdmittedFirst(t, u);
    assert Take(queued, t, begun.step).0.tasks == accepted.tasks;
    assert Next(w, asked) == Both(t, Refusing(), queued, map[], []);
    assert Next(Both(t, Refusing(), queued, map[], []), begun) == Both(u, Refusing(), accepted, map[KEY := Owner(1, 0)], []);
    OneAction(Next(w, asked), begun);
    Onward(w, asked, [begun]);
    assert Doubled()[4..6] == [asked] + [begun];
  }

  lemma Completes(t: Tables, u: Tables, running: Arbiter, settled: Arbiter)
    requires t == Ledger(1, map[KEY := Receipt("f", Admitted, 1, None)])
    requires u == Ledger(1, map[KEY := Receipt("f", Completed, 1, Some(Body("done")))])
    requires running == Holding([Task(Asking(0), 0, Executing(1))], 1, 1, 1)
    requires settled == Holding([Task(Asking(0), 0, Settled(Body("done"), Some(1)))], 1, 1, 0)
    ensures CanFinish(running, 0) && Finish(running, t, 0, false, Body("done"), true, Undefined) == (settled, u)
  {
    KeyOf(running, 0);
    assert CompleteMutation(t, KEY, Completed, Some(Body("done"))).value.receipts == u.receipts;
    assert Finish(running, t, 0, false, Body("done"), true, Undefined).0.tasks == settled.tasks;
  }

  lemma SecondCompletes()
    ensures var t := Ledger(1, map[KEY := Receipt("f", Admitted, 1, None)]);
            var u := Ledger(1, map[KEY := Receipt("f", Completed, 1, Some(Body("done")))]);
            var w := Both(t, Refusing(), Holding([Task(Asking(0), 0, Accepted(1))], 1, 1, 1), map[KEY := Owner(1, 0)], []);
            && Legal(w, Doubled()[6..])
            && After(w, Doubled()[6..]) ==
                 Both(u, Refusing(), Holding([Task(Asking(0), 0, Settled(Body("done"), Some(1)))], 1, 1, 0),
                      map[KEY := Owner(1, 0)], [Execution(1, 0, KEY, "f", 1, false)])
  {
    var t := Ledger(1, map[KEY := Receipt("f", Admitted, 1, None)]);
    var u := Ledger(1, map[KEY := Receipt("f", Completed, 1, Some(Body("done")))]);
    var accepted, running := Holding([Task(Asking(0), 0, Accepted(1))], 1, 1, 1), Holding([Task(Asking(0), 0, Executing(1))], 1, 1, 1);
    var settled := Holding([Task(Asking(0), 0, Settled(Body("done"), Some(1)))], 1, 1, 0);
    var owner, log := map[KEY := Owner(1, 0)], [Execution(1, 0, KEY, "f", 1, false)];
    var w := Both(t, Refusing(), accepted, owner, []);
    var consumed, finished := Doubled()[6], Doubled()[7];
    KeyOf(running, 0);
    assert Take(accepted, t, consumed.step).0.tasks == running.tasks;
    Completes(t, u, running, settled);
    assert Next(w, consumed) == Both(t, Refusing(), running, owner, log);
    assert Next(Both(t, Refusing(), running, owner, log), finished) == Both(u, Refusing(), settled, owner, log);
    OneAction(Next(w, consumed), finished);
    Onward(w, consumed, [finished]);
    assert Doubled()[6..] == [consumed] + [finished];
  }

  /**
   What JoinedMutationsReplay needs its one arbiter per session for. Two arbiters serve one session: the ledger holds
   the result of a key, and a call that joins the submission the first one refused before gets the conflict instead.
   */
  lemma JoinedBehindASecondArbiter(fail: Reply)
    ensures var w := Boot(Tables(map[], map[]));
            && Legal(w, Doubled())
            && var x := After(w, Doubled());
               && 0 in x.arbiters && Recorded(x.tables, RefOf(x.arbiters[0], Asking(1)), "f", Body("done"))
               && Submit(x.arbiters[0], Asking(1), true, fail).1 == Joined(0)
               && Legal(x, [Run(0, DoConsume(0))])
               && 0 in After(x, [Run(0, DoConsume(0))]).arbiters
               && var tasks := After(x, [Run(0, DoConsume(0))]).arbiters[0].tasks;
                  |tasks| == 1 && tasks[0].phase == Settled(Conflict(0), None)
  {
    hide *;
    var w, all := Boot(Tables(map[], map[])), Doubled();
    BothOpened();
    FirstRefuses();
    SecondAdmits();
    SecondCompletes();
    EightActions();
    assert all == all[..2] + (all[2..4] + (all[4..6] + all[6..]));
    RunsJoin(After(After(w, all[..2]), all[2..4]), all[4..6], all[6..]);
    RunsJoin(After(w, all[..2]), all[2..4], all[4..6] + all[6..]);
    RunsJoin(w, all[..2], all[2..4] + (all[4..6] + all[6..]));
    JoinerGetsConflict(fail);
  }

  lemma EightActions()
    ensures |Doubled()| == 8
  {
  }

  lemma JoinerGetsConflict(fail: Reply)
    ensures var x := Both(Ledger(1, map[KEY := Receipt("f", Completed, 1, Some(Body("done")))]), Refusing(),
                          Holding([Task(Asking(0), 0, Settled(Body("done"), Some(1)))], 1, 1, 0),
                          map[KEY := Owner(1, 0)], [Execution(1, 0, KEY, "f", 1, false)]);
            && 0 in x.arbiters && Recorded(x.tables, RefOf(x.arbiters[0], Asking(1)), "f", Body("done"))
            && Submit(x.arbiters[0], Asking(1), true, fail).1 == Joined(0)
            && Legal(x, [Run(0, DoConsume(0))])
            && 0 in After(x, [Run(0, DoConsume(0))]).arbiters
            && var tasks := After(x, [Run(0, DoConsume(0))]).arbiters[0].tasks;
               |tasks| == 1 && tasks[0].phase == Settled(Conflict(0), None)
  {
    KeyOf(Refusing(), 1);
    var x := Both(Ledger(1, map[KEY := Receipt("f", Completed, 1, Some(Body("done")))]), Refusing(),
                  Holding([Task(Asking(0), 0, Settled(Body("done"), Some(1)))], 1, 1, 0),
                  map[KEY := Owner(1, 0)], [Execution(1, 0, KEY, "f", 1, false)]);
    OneAction(x, Run(0, DoConsume(0)));
  }
}

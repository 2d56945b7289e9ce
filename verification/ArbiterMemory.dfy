/** Which closed submissions an arbiter still remembers, and how many. */
module ArbiterMemory {
  import opened Base
  import opened ReceiptTables
  import opened ArbiterModel
  import opened ArbiterLanes
  import opened ArbiterWorld

  /** The keys whose closed submission is still remembered. */
  ghost function ClosedKeys(a: Arbiter): set<string> {
    set key | key in a.receipts && a.receipts[key] < |a.tasks| && a.tasks[a.receipts[key]].phase.Closed? :: key
  }

  lemma ClosedIs(a: Arbiter)
    ensures forall key :: key in ClosedKeys(a) <==>
              key in a.receipts && a.receipts[key] < |a.tasks| && a.tasks[a.receipts[key]].phase.Closed?
    ensures ClosedKeys(a) <= a.receipts.Keys
  {
  }

  lemma Smaller<T>(x: set<T>, y: set<T>)
    ensures x <= y ==> |x| <= |y|
    ensures x < y ==> |x| < |y|
  {
    if x <= y { assert y == x + (y - x); }
  }

  // ---- forgetting a refused submission ---------------------------------------------------

  lemma LessOne(receipts: map<string, nat>, own: string)
    requires own in receipts
    ensures |receipts - {own}| == |receipts| - 1
  {
    assert receipts.Keys == (receipts - {own}).Keys + {own};
  }

  lemma SettledIs(a: Arbiter, i: nat)
    requires Remembered(a) && CanClose(a, i)
    ensures i < |a.tasks| && a.tasks[i].phase.Settled?
    ensures a.tasks[i].req.key in a.receipts && a.receipts[a.tasks[i].req.key] == i
  {
  }

  lemma ForgottenRemembers(a: Arbiter, i: nat)
    requires Remembered(a) && CanClose(a, i)
    ensures Remembered(Forgotten(a, i))
  {
    hide *;
    ForgottenIs(a, i);
    SettledIs(a, i);
    var b := SetPhase(a, i, Closed(a.tasks[i].phase.reply, a.tasks[i].phase.admitted));
    RephaseKeepsMemory(a, b, i, b.tasks[i].phase);
    if Forgotten(a, i) != b { ForgetKeepsMemory(b, i); }
  }

  lemma ForgottenLeaves(a: Arbiter, i: nat)
    requires Remembered(a) && CanClose(a, i)
    ensures var b, own, refused := Forgotten(a, i), a.tasks[i].req.key, a.tasks[i].phase.admitted.None?;
            && own in a.receipts && a.receipts[own] == i
            && b.receipts == (if refused then a.receipts - {own} else a.receipts)
            && b.tasks == a.tasks[i := a.tasks[i].(phase := Closed(a.tasks[i].phase.reply, a.tasks[i].phase.admitted))]
            && |b.receipts| == |a.receipts| - (if refused then 1 else 0)
  {
    hide *;
    SettledIs(a, i);
    ForgottenIs(a, i);
    ForgottenOnly(a, i);
    LessOne(a.receipts, a.tasks[i].req.key);
  }

  // Closing changes the closed keys by its own one only.
  lemma ForgottenCloses(a: Arbiter, i: nat)
    requires Remembered(a) && CanClose(a, i)
    ensures var own := a.tasks[i].req.key;
            ClosedKeys(Forgotten(a, i)) == if a.tasks[i].phase.admitted.None? then ClosedKeys(a) - {own} else ClosedKeys(a) + {own}
    ensures a.tasks[i].req.key !in ClosedKeys(a)
  {
    hide *;
    SettledIs(a, i);
    ForgottenLeaves(a, i);
    forall key ensures key in ClosedKeys(Forgotten(a, i)) <==>
                         (key in ClosedKeys(a) && key != a.tasks[i].req.key) || (key == a.tasks[i].req.key && a.tasks[i].phase.admitted.Some?)
    {
      ClosedAt(a, Forgotten(a, i), i, key);
    }
    ClosedAt(a, Forgotten(a, i), i, a.tasks[i].req.key);
  }

  lemma ClosedAt(a: Arbiter, b: Arbiter, i: nat, key: string)
    requires Remembered(a) && i < |a.tasks| && a.tasks[i].phase.Settled?
    requires b.tasks == a.tasks[i := a.tasks[i].(phase := Closed(a.tasks[i].phase.reply, a.tasks[i].phase.admitted))]
    requires b.receipts == if a.tasks[i].phase.admitted.None? then a.receipts - {a.tasks[i].req.key} else a.receipts
    ensures key in ClosedKeys(b) <==>
              (key in ClosedKeys(a) && key != a.tasks[i].req.key) || (key == a.tasks[i].req.key && a.tasks[i].phase.admitted.Some?)
    ensures a.tasks[i].req.key !in ClosedKeys(a)
  {
    hide *;
    ClosedIs(a);
    ClosedIs(b);
    ClosingIs(a, i);
    if key in a.receipts && key != a.tasks[i].req.key { KeyIsKept(a, i, key); }
  }

  lemma ClosingIs(a: Arbiter, i: nat)
    requires Remembered(a) && i < |a.tasks| && a.tasks[i].phase.Settled?
    ensures a.tasks[i].req.key in a.receipts && a.receipts[a.tasks[i].req.key] == i
  {
  }

  lemma KeyIsKept(a: Arbiter, i: nat, key: string)
    requires Remembered(a) && i < |a.tasks| && key in a.receipts && key != a.tasks[i].req.key
    ensures a.receipts[key] < |a.tasks| && a.receipts[key] != i
  {
  }

  // ---- eviction --------------------------------------------------------------------------

  /** Victim `gone`: the closed key other than the own one whose submission is the earliest. */
  ghost predicate Earliest(a: Arbiter, own: string, gone: string) {
    && gone in ClosedKeys(a) && gone != own && gone in a.receipts
    && forall other :: other in ClosedKeys(a) && other != own && other in a.receipts ==> a.receipts[gone] <= a.receipts[other]
  }

  /** Over 2048 remembered submissions, and with some other closed one, exactly the earliest goes; otherwise none does. */
  lemma EvictionIs(a: Arbiter, own: string) returns (gone: Option<string>)
    requires Remembered(a)
    ensures gone.Some? <==> |a.receipts| > 2048 && ClosedKeys(a) - {own} != {}
    ensures gone.Some? ==> Earliest(a, own, gone.value)
    ensures Bounded(a, own).receipts == if gone.Some? then a.receipts - {gone.value} else a.receipts
    ensures Bounded(a, own).tasks == a.tasks
  {
    FirstEvictableIsFirst(a.tasks, a.receipts, own, 0);
    ClosedIs(a);
    var victim := FirstEvictable(a.tasks, a.receipts, own, 0);
    forall other | other in ClosedKeys(a) && other != own ensures Evictable(a.tasks, a.receipts, own, a.receipts[other]) {}
    if |a.receipts| > 2048 && victim.Some? {
      gone := Some(a.tasks[victim.value].req.key);
      assert gone.value in ClosedKeys(a) - {own};
    } else {
      gone := None;
      if |a.receipts| > 2048 { NoneEvictable(a, own); }
    }
  }

  lemma NoneEvictable(a: Arbiter, own: string)
    requires Remembered(a) && forall k :: 0 <= k < |a.tasks| ==> !Evictable(a.tasks, a.receipts, own, k)
    ensures ClosedKeys(a) - {own} == {}
  {
    ClosedIs(a);
    if other :| other in ClosedKeys(a) - {own} { assert Evictable(a.tasks, a.receipts, own, a.receipts[other]); }
  }

  /**
   Closing a submission forgets its key exactly when it was refused. If more than 2048 are then still remembered, it also
   forgets the earliest other closed one, if there is any; it forgets nothing else.
   */
  lemma CloseIsExact(a: Arbiter, i: nat) returns (gone: Option<string>)
    requires Lanes(a) && CanClose(a, i)
    ensures var own := a.tasks[i].req.key;
            var left := if a.tasks[i].phase.admitted.None? then a.receipts - {own} else a.receipts;
            && own in a.receipts && a.receipts[own] == i
            && (gone.Some? <==> |left| > 2048 && ClosedKeys(a) - {own} != {})
            && (gone.Some? ==> Earliest(a, own, gone.value))
            && Close(a, i).receipts == if gone.Some? then left - {gone.value} else left
  {
    hide *;
    LanesParts(a);
    CloseIs(a, i);
    var own, b := a.tasks[i].req.key, Forgotten(a, i);
    SettledIs(a, i);
    ForgottenLeaves(a, i);
    ForgottenCloses(a, i);
    ForgottenRemembers(a, i);
    gone := EvictionIs(b, own);
    assert ClosedKeys(b) - {own} == ClosedKeys(a) - {own};
    ClosedIs(a);
    if gone.Some? { EarliestBefore(a, b, own, gone.value); }
  }

  lemma EarliestBefore(a: Arbiter, b: Arbiter, own: string, gone: string)
    requires Earliest(b, own, gone) && ClosedKeys(b) - {own} == ClosedKeys(a) - {own}
    requires b.receipts == a.receipts - {own} || b.receipts == a.receipts
    ensures Earliest(a, own, gone)
  {
    forall other | other in ClosedKeys(a) && other != own && other in a.receipts ensures a.receipts[gone] <= a.receipts[other] {
      assert other in ClosedKeys(a) - {own};
      assert other in b.receipts;
    }
    assert gone in ClosedKeys(b) - {own};
  }

  // ---- how much is remembered ------------------------------------------------------------

  /** At most 2048 closed submissions are remembered. */
  ghost predicate MemoryBounded(a: Arbiter) {
    |ClosedKeys(a)| <= 2048
  }

  lemma Counts(x: set<string>, y: set<string>, own: string, gone: string, left: set<string>)
    ensures y <= (x + {own}) - {gone} && gone in x && gone != own ==> |y| <= |x|
    ensures y <= left ==> |y| <= |left|
    ensures y <= {own} ==> |y| <= 1
  {
    Smaller(y, left);
    Smaller(y, {own});
    if y <= (x + {own}) - {gone} && gone in x && gone != own {
      assert (x + {own}) - {gone} == (x - {gone}) + {own};
      Smaller(y, (x - {gone}) + {own});
    }
  }

  lemma CloseBoundsMemory(a: Arbiter, i: nat)
    requires Lanes(a) && CanClose(a, i) && MemoryBounded(a)
    ensures MemoryBounded(Close(a, i))
  {
    hide *;
    LanesParts(a);
    SettledIs(a, i);
    var gone := CloseIsExact(a, i);
    var own, c := a.tasks[i].req.key, Close(a, i);
    CloseOnlyCloses(a, i);
    ClosedAfter(a, c, own, gone);
    ClosedIs(c);
    Counts(ClosedKeys(a), ClosedKeys(c), own, if gone.Some? then gone.value else own, c.receipts.Keys);
    if gone.Some? { EarliestIs(a, own, gone.value); }
    else if |c.receipts| > 2048 { assert ClosedKeys(c) <= {own}; }
    BoundedIf(a, c);
  }

  lemma EarliestIs(a: Arbiter, own: string, gone: string)
    requires Earliest(a, own, gone)
    ensures gone in ClosedKeys(a) && gone != own
  {
  }

  lemma BoundedIf(a: Arbiter, c: Arbiter)
    requires MemoryBounded(a)
    ensures |ClosedKeys(c)| <= |ClosedKeys(a)| || |ClosedKeys(c)| <= 2048 ==> MemoryBounded(c)
  {
  }

  lemma CloseOnlyCloses(a: Arbiter, i: nat)
    requires Lanes(a) && CanClose(a, i)
    ensures var c, own := Close(a, i), a.tasks[i].req.key;
            forall key :: key in ClosedKeys(c) ==> key in c.receipts && (key in ClosedKeys(a) || key == own)
  {
    hide Close;
    LanesParts(a);
    CloseOnly(a, i);
    SettledIs(a, i);
    ClosedIs(a);
    ClosedIs(Close(a, i));
  }

  lemma ClosedAfter(a: Arbiter, c: Arbiter, own: string, gone: Option<string>)
    requires forall key :: key in ClosedKeys(c) ==> key in c.receipts && (key in ClosedKeys(a) || key == own)
    requires gone.Some? ==> gone.value !in c.receipts
    ensures ClosedKeys(c) <= ClosedKeys(a) + {own}
    ensures gone.Some? ==> ClosedKeys(c) <= (ClosedKeys(a) + {own}) - {gone.value}
  {
  }

  // No other step closes a submission or takes a key over from one.
  predicate ClosesNone(a: Arbiter, b: Arbiter) {
    && |a.tasks| <= |b.tasks|
    && (forall i :: 0 <= i < |b.tasks| && b.tasks[i].phase.Closed? ==> i < |a.tasks| && a.tasks[i].phase.Closed?)
    && (forall key :: key in b.receipts && b.receipts[key] < |a.tasks| ==> key in a.receipts && a.receipts[key] == b.receipts[key])
  }

  lemma CommitClosesNone(a: Arbiter, t: Tables, env: Surroundings)
    requires a.turn < |a.tasks|
    ensures ClosesNone(a, Commit(a, t, env).0)
  {
  }

  lemma BeginClosesNone(a: Arbiter, t: Tables, env: Surroundings)
    requires CanBegin(a)
    ensures ClosesNone(a, Begin(a, t, env).0)
  {
    CommitClosesNone(a, t, env);
  }

  lemma ResumeClosesNone(a: Arbiter, t: Tables, gate: Gate, env: Surroundings)
    requires CanResume(a)
    ensures ClosesNone(a, Resume(a, t, gate, env).0)
  {
    CommitClosesNone(a, t, env);
  }

  lemma ExecutionClosesNone(a: Arbiter, t: Tables, i: nat)
    ensures CanConsume(a, i) ==> ClosesNone(a, Consume(a, i))
    ensures CanLaunch(a, i) ==> ClosesNone(a, Launch(a, i))
  {
  }

  lemma FinishClosesNone(a: Arbiter, t: Tables, i: nat, failed: bool, reply: Reply, storable: bool, fail: Reply)
    requires CanFinish(a, i)
    ensures ClosesNone(a, Finish(a, t, i, failed, reply, storable, fail).0)
  {
  }

  lemma OthersCloseNone(a: Arbiter, t: Tables, req: Request, canonical: bool, fail: Reply, revision: int)
    ensures ClosesNone(a, Submit(a, req, canonical, fail).0)
    ensures ClosesNone(a, PublishAutonomous(a, t).0) && ClosesNone(a, PublishDurable(a, t, revision).0)
  {
  }

  lemma ClosesNoneBounds(a: Arbiter, b: Arbiter)
    requires MemoryBounded(a) && ClosesNone(a, b)
    ensures MemoryBounded(b)
  {
    Smaller(ClosedKeys(b), ClosedKeys(a));
  }

  lemma StepBoundsMemory(a: Arbiter, t: Tables, step: Step)
    requires Lanes(a) && CanTake(a, step) && MemoryBounded(a)
    ensures MemoryBounded(Take(a, t, step).0)
  {
    hide *;
    TakeIs(a, t, step);
    match step
    case DoSubmit(req, canonical, fail) =>
      OthersCloseNone(a, t, req, canonical, fail, 0);
      ClosesNoneBounds(a, Take(a, t, step).0);
    case DoBegin(env) =>
      BeginClosesNone(a, t, env);
      ClosesNoneBounds(a, Take(a, t, step).0);
    case DoResume(gate, env) =>
      ResumeClosesNone(a, t, gate, env);
      ClosesNoneBounds(a, Take(a, t, step).0);
    case DoConsume(i) =>
      ExecutionClosesNone(a, t, i);
      ClosesNoneBounds(a, Take(a, t, step).0);
    case DoLaunch(i) =>
      ExecutionClosesNone(a, t, i);
      ClosesNoneBounds(a, Take(a, t, step).0);
    case DoFinish(i, failed, reply, storable, fail) =>
      FinishClosesNone(a, t, i, failed, reply, storable, fail);
      ClosesNoneBounds(a, Take(a, t, step).0);
    case DoClose(i) => CloseBoundsMemory(a, i);
    case DoAutonomous =>
      OthersCloseNone(a, t, ANY, false, Undefined, 0);
      ClosesNoneBounds(a, Take(a, t, step).0);
    case DoDurable(revision) =>
      OthersCloseNone(a, t, ANY, false, Undefined, revision);
      ClosesNoneBounds(a, Take(a, t, step).0);
  }

  const ANY := Request("", "", 0, false, false, Control, false, false)

  ghost predicate AllBounded(w: World) {
    forall id :: id in w.arbiters ==> MemoryBounded(w.arbiters[id])
  }

  lemma NextBoundsMemory(w: World, act: Action)
    requires Inv(w) && AllBounded(w) && Enabled(w, act)
    ensures AllBounded(Next(w, act))
  {
    if act.Run? {
      RunBoundsMemory(w, act.id, act.step);
    } else if act.OpenArbiter? {
      OpenForgets(w.tables, act.session, act.domain, act.clock);
    }
  }

  lemma OpenForgets(t: Tables, session: string, domain: string, clock: nat)
    ensures MemoryBounded(Open(t, session, domain, clock).0)
  {
    assert ClosedKeys(Open(t, session, domain, clock).0) == {};
  }

  lemma RunBoundsMemory(w: World, id: nat, step: Step)
    requires Inv(w) && AllBounded(w) && Enabled(w, Run(id, step))
    ensures AllBounded(Next(w, Run(id, step)))
  {
    hide *;
    RunIs(w, id, step);
    InvParts(w);
    OkParts(w);
    BoundedAll(w);
    StepBoundsMemory(w.arbiters[id], w.tables, step);
    AllBoundedIf(Next(w, Run(id, step)));
  }

  lemma BoundedAll(w: World)
    requires AllBounded(w)
    ensures forall id :: id in w.arbiters ==> MemoryBounded(w.arbiters[id])
  {
  }

  lemma AllBoundedIf(w: World)
    requires forall id :: id in w.arbiters ==> MemoryBounded(w.arbiters[id])
    ensures AllBounded(w)
  {
  }

  /** Over every run no arbiter remembers more than 2048 closed submissions. */
  lemma {:induction false} MemoryStaysBounded(w: World, acts: seq<Action>)
    requires Inv(w) && AllBounded(w) && Legal(w, acts)
    ensures AllBounded(After(w, acts))
    decreases |acts|
  {
    if acts != [] {
      NextKeepsInv(w, acts[0]);
      NextBoundsMemory(w, acts[0]);
      MemoryStaysBounded(Next(w, acts[0]), acts[1..]);
    }
  }
}

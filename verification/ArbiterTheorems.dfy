/**
 The guarantees of the mutation arbiter over whole runs: at-most-once execution, a
 clock in step with the ledger, serial admission, lane exclusion, cancel fencing and
 freedom from deadlock.
 */
module ArbiterTheorems {
  import opened Base
  import opened ReceiptTables
  import opened ArbiterModel
  import opened ArbiterLanes
  import opened ArbiterWorld

  // ---- at most once ---------------------------------------------------------------------

  lemma BootInv(t: Tables)
    requires Valid(t)
    ensures Inv(Boot(t))
  {
  }

  /**
   Over every interleaving of submissions, admissions, evictions, crashes, recoveries, reopenings and fresh
   arbiters: a (session, domain, key) executes at most once, under the fingerprint and revision its receipt
   holds, and the normal executions of one arbiter start in submission order.
   */
  lemma ExecutesAtMostOnce(t: Tables, acts: seq<Action>)
    requires Valid(t) && Legal(Boot(t), acts)
    ensures var w := After(Boot(t), acts);
            && (forall j, k :: 0 <= j < |w.log| && 0 <= k < |w.log| && w.log[j].ref == w.log[k].ref ==> j == k)
            && (forall j :: 0 <= j < |w.log| ==>
                  w.log[j].ref in w.tables.receipts
                  && w.tables.receipts[w.log[j].ref].fingerprint == w.log[j].fingerprint
                  && w.tables.receipts[w.log[j].ref].acceptedRevision == w.log[j].revision)
            && (forall j, k :: 0 <= j < k < |w.log| && w.log[j].arbiter == w.log[k].arbiter && w.log[j].normal && w.log[k].normal ==>
                  w.log[j].task < w.log[k].task)
  {
    hide *;
    BootInv(t);
    RunsKeepInv(Boot(t), acts);
    var w := After(Boot(t), acts);
    InvParts(w);
    OrderedParts(w.log);
    forall j | 0 <= j < |w.log|
      ensures w.log[j].ref in w.tables.receipts
              && w.tables.receipts[w.log[j].ref].fingerprint == w.log[j].fingerprint
              && w.tables.receipts[w.log[j].ref].acceptedRevision == w.log[j].revision
    {
      assert w.log[j] in w.log && EntryBacked(w, w.log[j]);
      EntryParts(w, w.log[j]);
    }
  }

  lemma OrderedParts(log: seq<Execution>)
    requires LogOrdered(log)
    ensures forall j, k :: 0 <= j < |log| && 0 <= k < |log| && log[j].ref == log[k].ref ==> j == k
    ensures forall j, k :: 0 <= j < k < |log| && log[j].arbiter == log[k].arbiter && log[j].normal && log[k].normal ==>
              log[j].task < log[k].task
  {
  }

  lemma EntryParts(w: World, e: Execution)
    requires EntryBacked(w, e)
    ensures e.ref in w.tables.receipts
            && w.tables.receipts[e.ref].fingerprint == e.fingerprint
            && w.tables.receipts[e.ref].acceptedRevision == e.revision
  {
  }

  ghost predicate Unowned(w: World, refs: set<Ref>) {
    forall ref :: ref in refs ==> ref in w.tables.receipts && ref !in w.owner
  }

  // Only the step that writes a receipt gives it an owner.
  lemma AdmittedIsNew(a: Arbiter, t: Tables, step: Step)
    requires CanTake(a, step) && a.clock <= Revision(t, a.session)
    requires Admits(a, Take(a, t, step).0, Focus(a, step))
    ensures RefOf(a, a.tasks[Focus(a, step)].req) !in t.receipts
  {
    hide *;
    StepEffect(a, t, step);
    AdmitEffect(a, t, step, Take(a, t, step).0, Take(a, t, step).1);
  }

  lemma AdmitEffect(a: Arbiter, t: Tables, step: Step, b: Arbiter, u: Tables)
    requires CanTake(a, step) && Effect(a, t, step, b, u) && Admits(a, b, Focus(a, step))
    ensures Focus(a, step) < |a.tasks| && RefOf(a, a.tasks[Focus(a, step)].req) !in t.receipts
  {
  }

  lemma OwnerIs(w: World, id: nat, step: Step)
    requires Enabled(w, Run(id, step))
    ensures id in w.arbiters && CanTake(w.arbiters[id], step)
    ensures var k := Focus(w.arbiters[id], step);
            Next(w, Run(id, step)).owner ==
              if Admits(w.arbiters[id], Take(w.arbiters[id], w.tables, step).0, k)
              then w.owner[RefOf(w.arbiters[id], w.arbiters[id].tasks[k].req) := Owner(id, k)] else w.owner
  {
  }

  lemma ArbiterInStep(w: World, id: nat)
    requires Inv(w) && id in w.arbiters
    ensures w.arbiters[id].clock <= Revision(w.tables, w.arbiters[id].session)
  {
  }

  lemma NextKeepsUnowned(w: World, act: Action, refs: set<Ref>)
    requires Inv(w) && Enabled(w, act) && Unowned(w, refs) && Grows(w.tables, Next(w, act).tables)
    ensures Unowned(Next(w, act), refs)
  {
    if act.Run? {
      ArbiterInStep(w, act.id);
      RunKeepsUnowned(w, act.id, act.step, refs);
    }
  }

  lemma RunKeepsUnowned(w: World, id: nat, step: Step, refs: set<Ref>)
    requires Enabled(w, Run(id, step)) && Unowned(w, refs) && Grows(w.tables, Next(w, Run(id, step)).tables)
    requires id in w.arbiters && w.arbiters[id].clock <= Revision(w.tables, w.arbiters[id].session)
    ensures Unowned(Next(w, Run(id, step)), refs)
  {
    hide *;
    OwnerIs(w, id, step);
    var a := w.arbiters[id];
    var b := Take(a, w.tables, step).0;
    if Admits(a, b, Focus(a, step)) { AdmittedIsNew(a, w.tables, step); }
    StillUnowned(w, Next(w, Run(id, step)), refs);
  }

  lemma StillUnowned(w: World, x: World, refs: set<Ref>)
    requires Unowned(w, refs) && Grows(w.tables, x.tables)
    requires forall ref :: ref in x.owner ==> ref in w.owner || ref !in w.tables.receipts
    ensures Unowned(x, refs)
  {
  }

  lemma {:induction false} RunsKeepUnowned(w: World, acts: seq<Action>, refs: set<Ref>)
    requires Inv(w) && Legal(w, acts) && Unowned(w, refs)
    ensures Unowned(After(w, acts), refs)
    decreases |acts|
  {
    if acts != [] {
      NextKeepsInv(w, acts[0]);
      NextKeepsUnowned(w, acts[0], refs);
      RunsKeepUnowned(Next(w, acts[0]), acts[1..], refs);
    }
  }

  /** A receipt left by an earlier process, whatever its status, is never executed again. */
  lemma InheritedReceiptsNeverExecute(t: Tables, acts: seq<Action>)
    requires Valid(t) && Legal(Boot(t), acts)
    ensures forall e :: e in After(Boot(t), acts).log ==> e.ref !in t.receipts
  {
    BootInv(t);
    RunsKeepUnowned(Boot(t), acts, t.receipts.Keys);
    RunsKeepInv(Boot(t), acts);
    var w := After(Boot(t), acts);
    forall e | e in w.log ensures e.ref !in t.receipts { assert EntryBacked(w, e); }
  }

  /** A key that already has a receipt under another fingerprint is turned away and the ledger is left alone. */
  lemma MismatchedReuseIsFenced(a: Arbiter, t: Tables, env: Surroundings)
    requires CanBegin(a) && !env.lookupThrows && a.clock <= Revision(t, a.session)
    requires RefOf(a, a.tasks[a.turn].req) in t.receipts
    requires t.receipts[RefOf(a, a.tasks[a.turn].req)].fingerprint != a.tasks[a.turn].req.fingerprint
    ensures Begin(a, t, env).1 == t
    ensures Begin(a, t, env).0.tasks[a.turn].phase == Refused(InvalidReuse(Revision(t, a.session)))
  {
  }

  // ---- clock and serial admission ------------------------------------------------------------

  /** No session is bound to two live arbiters. */
  ghost predicate Exclusive(w: World) {
    forall p, q :: p in w.arbiters && q in w.arbiters && p != q ==> w.arbiters[p].session != w.arbiters[q].session
  }

  ghost predicate InStep(w: World) {
    forall id :: id in w.arbiters ==> w.arbiters[id].clock == Revision(w.tables, w.arbiters[id].session)
  }

  ghost predicate ExclusiveRun(w: World, acts: seq<Action>)
    requires Legal(w, acts)
    decreases |acts|
  {
    Exclusive(w) && (acts == [] || ExclusiveRun(Next(w, acts[0]), acts[1..]))
  }

  lemma CommitInStep(a: Arbiter, t: Tables, env: Surroundings)
    requires a.turn < |a.tasks| && a.clock == Revision(t, a.session)
    ensures var (b, u) := Commit(a, t, env);
            && b.session == a.session && b.clock == Revision(u, a.session) && a.clock <= b.clock
            && forall s :: s != a.session ==> Revision(u, s) == Revision(t, s)
  {
  }

  lemma StepInStep(a: Arbiter, t: Tables, step: Step)
    requires CanTake(a, step) && a.clock == Revision(t, a.session)
    ensures var (b, u) := Take(a, t, step);
            && b.session == a.session && b.clock == Revision(u, a.session) && a.clock <= b.clock
            && forall s :: s != a.session ==> Revision(u, s) == Revision(t, s)
  {
    hide *;
    TakeIs(a, t, step);
    match step
    case DoSubmit(req, canonical, fail) => QuietInStep(a, t, step);
    case DoBegin(env) => BeginInStep(a, t, env);
    case DoResume(gate, env) => ResumeInStep(a, t, gate, env);
    case DoConsume(_) => QuietInStep(a, t, step);
    case DoLaunch(_) => QuietInStep(a, t, step);
    case DoFinish(i, failed, reply, storable, fail) => FinishInStep(a, t, i, failed, reply, storable, fail);
    case DoClose(_) => QuietInStep(a, t, step);
    case DoAutonomous => PublishInStep(a, t, 0);
    case DoDurable(revision) => PublishInStep(a, t, revision);
  }

  lemma BeginInStep(a: Arbiter, t: Tables, env: Surroundings)
    requires CanBegin(a) && a.clock == Revision(t, a.session)
    ensures var (b, u) := Begin(a, t, env);
            && b.session == a.session && b.clock == Revision(u, a.session) && a.clock <= b.clock
            && forall s :: s != a.session ==> Revision(u, s) == Revision(t, s)
  {
    CommitInStep(a, t, env);
  }

  lemma ResumeInStep(a: Arbiter, t: Tables, gate: Gate, env: Surroundings)
    requires CanResume(a) && a.clock == Revision(t, a.session)
    ensures var (b, u) := Resume(a, t, gate, env);
            && b.session == a.session && b.clock == Revision(u, a.session) && a.clock <= b.clock
            && forall s :: s != a.session ==> Revision(u, s) == Revision(t, s)
  {
    CommitInStep(a, t, env);
  }

  lemma FinishInStep(a: Arbiter, t: Tables, i: nat, failed: bool, reply: Reply, storable: bool, fail: Reply)
    requires CanFinish(a, i)
    ensures var (b, u) := Finish(a, t, i, failed, reply, storable, fail);
            b.session == a.session && b.clock == a.clock && forall s :: Revision(u, s) == Revision(t, s)
  {
  }

  lemma PublishInStep(a: Arbiter, t: Tables, revision: int)
    requires a.clock == Revision(t, a.session)
    ensures var (b, u) := PublishAutonomous(a, t);
            && b.session == a.session && b.clock == Revision(u, a.session) && a.clock <= b.clock
            && forall s :: s != a.session ==> Revision(u, s) == Revision(t, s)
    ensures var (b, u) := PublishDurable(a, t, revision);
            && b.session == a.session && b.clock == Revision(u, a.session) && a.clock <= b.clock
            && forall s :: s != a.session ==> Revision(u, s) == Revision(t, s)
  {
  }

  // Submitting, consuming, launching and closing leave clock and ledger alone.
  lemma QuietInStep(a: Arbiter, t: Tables, step: Step)
    requires CanTake(a, step) && (step.DoSubmit? || step.DoConsume? || step.DoLaunch? || step.DoClose?)
    ensures Take(a, t, step).1 == t && Take(a, t, step).0.session == a.session && Take(a, t, step).0.clock == a.clock
  {
  }

  lemma NextInStep(w: World, act: Action)
    requires Enabled(w, act) && Exclusive(w) && Exclusive(Next(w, act)) && InStep(w)
    requires act.OpenArbiter? ==> w.issued !in w.arbiters
    ensures InStep(Next(w, act))
    ensures forall id :: id in w.arbiters && id in Next(w, act).arbiters ==>
              w.arbiters[id].clock <= Next(w, act).arbiters[id].clock
  {
    var x := Next(w, act);
    match act
    case Run(id, step) => StepInStep(w.arbiters[id], w.tables, step);
    case OpenArbiter(session, domain, clock) =>
      forall m | m in x.arbiters && m != w.issued ensures x.arbiters[m].session != session {
        assert x.arbiters[w.issued].session == session;
      }
    case DropArbiter(_) =>
    case Recover =>
    case Reopen(_) =>
  }

  /**
   With one arbiter per session, in every reachable state each clock equals the durable session revision, no
   surviving clock has gone back, and the receipts of a session have pairwise distinct accepted revisions, none
   above the session revision.
   */
  lemma {:induction false} ClockFollowsLedger(w: World, acts: seq<Action>)
    requires Inv(w) && InStep(w) && Legal(w, acts) && ExclusiveRun(w, acts)
    ensures InStep(After(w, acts)) && Valid(After(w, acts).tables)
    ensures forall id :: id in w.arbiters && id in After(w, acts).arbiters ==>
              w.arbiters[id].clock <= After(w, acts).arbiters[id].clock
    decreases |acts|
  {
    if acts != [] {
      var x := Next(w, acts[0]);
      assert w.issued !in w.arbiters;
      NextKeepsInv(w, acts[0]);
      assert Exclusive(x);
      NextInStep(w, acts[0]);
      ClockFollowsLedger(x, acts[1..]);
      forall id | id in w.arbiters && id in After(w, acts).arbiters
        ensures w.arbiters[id].clock <= After(w, acts).arbiters[id].clock
      {
        NeverReissued(x, acts[1..], id);
      }
    }
  }

  lemma {:induction false} NeverReissued(w: World, acts: seq<Action>, id: nat)
    requires Legal(w, acts) && id in After(w, acts).arbiters && id < w.issued
    ensures id in w.arbiters
    decreases |acts|
  {
    if acts != [] { NeverReissued(Next(w, acts[0]), acts[1..], id); }
  }

  // ---- lanes -----------------------------------------------------------------------------------

  predicate ExecutesNormal(task: Task) { task.req.lane.Normal? && task.phase.Executing? }

  function HeldTasks(tasks: seq<Task>): set<nat> {
    set i: nat | i < |tasks| && tasks[i].phase.Held()
  }

  lemma {:induction false} SumCountsHeld(tasks: seq<Task>)
    ensures Sum(tasks, HeldWeight) == |HeldTasks(tasks)|
    decreases |tasks|
  {
    if tasks == [] {
      assert HeldTasks(tasks) == {};
    } else {
      var front, x := tasks[..|tasks| - 1], tasks[|tasks| - 1];
      assert tasks == front + [x];
      SumAppend(front, x, HeldWeight);
      SumCountsHeld(front);
      var last: nat := |front|;
      if x.phase.Held() {
        assert HeldTasks(tasks) == HeldTasks(front) + {last};
      } else {
        assert HeldTasks(tasks) == HeldTasks(front);
      }
    }
  }

  /**
   The active count is the number of admitted, unfinished mutations; the generations are the revisions of those
   that are normal or cancel-binding; at most one normal mutation executes; and while any mutation is admitted
   and unfinished, an autonomous publication moves neither clock nor ledger.
   */
  lemma LanesAreExact(a: Arbiter, t: Tables)
    requires Lanes(a)
    ensures a.active == |HeldTasks(a.tasks)|
    ensures forall g :: g in a.generations <==>
              exists i :: 0 <= i < |a.tasks| && a.tasks[i].phase.Held()
                          && (a.tasks[i].req.lane.Normal? || a.tasks[i].req.bindsCancel)
                          && a.tasks[i].phase.revision == g
    ensures forall i, j :: 0 <= i < |a.tasks| && 0 <= j < |a.tasks| && ExecutesNormal(a.tasks[i]) && ExecutesNormal(a.tasks[j]) ==>
              i == j
    ensures HeldTasks(a.tasks) != {} ==> PublishAutonomous(a, t) == (a, t)
  {
    SumCountsHeld(a.tasks);
    forall i, j | 0 <= j < i < |a.tasks| && ExecutesNormal(a.tasks[i]) && ExecutesNormal(a.tasks[j])
      ensures false
    {
      assert BothNormal(a.tasks, j, i);
    }
    if i :| i in HeldTasks(a.tasks) { SumPositive(a.tasks, i); }
  }

  // ---- cancel fencing ------------------------------------------------------------------------------

  /** An admitted, unfinished submission of the normal lane, or of another lane that binds cancels to it. */
  predicate CancelBinds(task: Task) {
    task.phase.Held() && (task.req.lane.Normal? || task.req.bindsCancel)
  }

  /** Submission `i` is the oldest admitted, unfinished one a cancel can bind to. */
  ghost predicate OldestBinding(a: Arbiter, i: nat) {
    && i < |a.tasks| && CancelBinds(a.tasks[i])
    && forall j :: 0 <= j < |a.tasks| && CancelBinds(a.tasks[j]) ==>
         a.tasks[i].phase.revision <= a.tasks[j].phase.revision
  }

  lemma OldestIsLeastGeneration(a: Arbiter, i: nat)
    requires Counted(a) && OldestBinding(a, i)
    ensures a.tasks[i].phase.revision in a.generations
    ensures forall h :: h in a.generations ==> a.tasks[i].phase.revision <= h
  {
  }

  lemma LeastGenerationIsOldest(a: Arbiter, g: nat) returns (i: nat)
    requires Counted(a) && g in a.generations && forall h :: h in a.generations ==> g <= h
    ensures OldestBinding(a, i) && a.tasks[i].phase.revision == g
  {
    i :| 0 <= i < |a.tasks| && a.tasks[i].phase.Held() && Binds(a.tasks[i].req) && a.tasks[i].phase.revision == g;
    forall j | 0 <= j < |a.tasks| && a.tasks[j].phase.Held() && Binds(a.tasks[j].req)
      ensures g <= a.tasks[j].phase.revision
    {
      assert a.tasks[j].phase.revision in HeldBinding(a.tasks);
    }
  }

  /**
   A cancel with a stale revision passes exactly when some admitted turn is unfinished and the revision is no
   older than the base of the oldest such turn. In particular a cancel formed before that base never reaches it.
   */
  lemma StaleCancelReachesOnlyCurrentTurns(a: Arbiter, req: Request, env: Surroundings)
    requires Counted(a) && IsSafeInteger(a.clock)
    requires req.lane.Cancel? && !req.acceptLatest && !req.checksIdentity && req.expectedRevision != a.clock
    ensures Fresh(a, req, env) <==>
              0 <= req.expectedRevision < a.clock
              && exists i: nat :: OldestBinding(a, i) && a.tasks[i].phase.revision - 1 <= req.expectedRevision
    ensures forall i: nat :: OldestBinding(a, i) && req.expectedRevision < a.tasks[i].phase.revision - 1 ==>
              !Fresh(a, req, env)
  {
    forall i: nat | OldestBinding(a, i)
      ensures a.tasks[i].phase.revision in a.generations
      ensures forall h :: h in a.generations ==> a.tasks[i].phase.revision <= h
    {
      OldestIsLeastGeneration(a, i);
    }
    if StalePreemptiveCancel(a, req) {
      var g :| g in a.generations && g <= req.expectedRevision + 1 && forall h :: h in a.generations ==> g <= h;
      var i := LeastGenerationIsOldest(a, g);
    }
  }

  /**
   A normal mutation that has taken its admission can start exactly when every cancel submitted before it did so has
   been admitted or refused: it waits for those and for nothing else.
   */
  lemma LaunchAfterCancels(a: Arbiter, i: nat)
    requires Lanes(a) && i < |a.tasks| && a.tasks[i].phase.Fenced?
    ensures CanLaunch(a, i) <==>
              forall c :: 0 <= c < a.tasks[i].phase.seen && c < |a.tasks| && a.tasks[c].req.lane.Cancel? ==>
                !a.tasks[c].phase.Queued? && !a.tasks[c].phase.Checking?
    ensures a.tasks[i].phase.seen <= |a.tasks|
  {
    hide *;
    LanesParts(a);
    FenceDecides(a, i);
  }

  lemma FenceDecides(a: Arbiter, i: nat)
    requires AdmissionsInTurn(a) && FencesCoverCancels(a) && i < |a.tasks| && a.tasks[i].phase.Fenced?
    ensures a.tasks[i].phase.seen <= |a.tasks|
    ensures CanLaunch(a, i) <==>
              forall c :: 0 <= c < a.tasks[i].phase.seen && c < |a.tasks| && a.tasks[c].req.lane.Cancel? ==>
                !a.tasks[c].phase.Queued? && !a.tasks[c].phase.Checking?
  {
    var fence := a.tasks[i].phase.fence;
    assert LastOf(a.tasks, Cancel, fence, a.tasks[i].phase.seen);
    if fence > a.turn { assert a.tasks[fence - 1].req.lane.Cancel?; }
  }

  // ---- no deadlock ----------------------------------------------------------------------------------

  predicate Internal(step: Step) {
    step.DoBegin? || step.DoResume? || step.DoConsume? || step.DoLaunch? || step.DoFinish? || step.DoClose?
  }

  function Distance(p: Phase): nat {
    match p
    case Queued => 6
    case Checking => 5
    case Accepted(_) => 4
    case Fenced(_, _, _) => 3
    case Executing(_) => 2
    case Refused(_) => 2
    case Settled(_, _) => 1
    case Closed(_, _) => 0
  }

  function Measure(a: Arbiter): nat { Sum(a.tasks, Distance) }

  // Submission `k` alone has moved on, to a phase nearer its end.
  predicate Advances(a: Arbiter, b: Arbiter, k: nat) {
    && k < |a.tasks| == |b.tasks|
    && b.tasks == a.tasks[k := a.tasks[k].(phase := b.tasks[k].phase)]
    && Distance(b.tasks[k].phase) < Distance(a.tasks[k].phase)
  }

  lemma AdvanceLowersMeasure(a: Arbiter, b: Arbiter, k: nat)
    requires Advances(a, b, k)
    ensures Measure(b) < Measure(a)
  {
    SumUpdate(a.tasks, k, b.tasks[k], Distance);
  }

  lemma CommitAdvances(a: Arbiter, t: Tables, env: Surroundings)
    requires a.turn < |a.tasks| && (a.tasks[a.turn].phase.Queued? || a.tasks[a.turn].phase.Checking?)
    ensures Advances(a, Commit(a, t, env).0, a.turn)
  {
  }

  lemma BeginAdvances(a: Arbiter, t: Tables, env: Surroundings)
    requires CanBegin(a)
    ensures Advances(a, Begin(a, t, env).0, a.turn)
  {
    CommitAdvances(a, t, env);
  }

  lemma ResumeAdvances(a: Arbiter, t: Tables, gate: Gate, env: Surroundings)
    requires CanResume(a)
    ensures Advances(a, Resume(a, t, gate, env).0, a.turn)
  {
    CommitAdvances(a, t, env);
  }

  lemma ConsumeAdvances(a: Arbiter, i: nat)
    requires CanConsume(a, i)
    ensures Advances(a, Consume(a, i), i)
  {
  }

  lemma LaunchAdvances(a: Arbiter, i: nat)
    requires CanLaunch(a, i)
    ensures Advances(a, Launch(a, i), i)
  {
  }

  lemma CloseAdvances(a: Arbiter, i: nat)
    requires CanClose(a, i)
    ensures Advances(a, Close(a, i), i)
  {
    hide *;
    CloseMoves(a, i);
    ClosingIsNearer(a.tasks[i].phase);
    MovesAdvance(a, Close(a, i), i, Closed(a.tasks[i].phase.reply, a.tasks[i].phase.admitted));
  }

  lemma ClosingIsNearer(p: Phase)
    requires p.Settled?
    ensures Distance(Closed(p.reply, p.admitted)) < Distance(p)
  {
  }

  lemma MovesAdvance(a: Arbiter, b: Arbiter, k: nat, q: Phase)
    requires Moves(a, b, k, q) && Distance(q) < Distance(a.tasks[k].phase)
    ensures Advances(a, b, k)
  {
  }

  lemma FinishAdvances(a: Arbiter, t: Tables, i: nat, failed: bool, reply: Reply, storable: bool, fail: Reply)
    requires CanFinish(a, i)
    ensures Advances(a, Finish(a, t, i, failed, reply, storable, fail).0, i)
  {
  }

  lemma FocusIs(a: Arbiter, step: Step)
    ensures step.DoBegin? || step.DoResume? ==> Focus(a, step) == a.turn
    ensures step.DoFinish? || step.DoConsume? || step.DoLaunch? || step.DoClose? ==> Focus(a, step) == step.task
  {
  }

  lemma StepAdvances(a: Arbiter, t: Tables, step: Step)
    requires CanTake(a, step) && Internal(step)
    ensures Advances(a, Take(a, t, step).0, Focus(a, step))
  {
    hide *;
    TakeIs(a, t, step);
    FocusIs(a, step);
    InternalIs(step);
    match step
    case DoBegin(env) => BeginAdvances(a, t, env);
    case DoResume(gate, env) => ResumeAdvances(a, t, gate, env);
    case DoFinish(i, failed, reply, storable, fail) => FinishAdvances(a, t, i, failed, reply, storable, fail);
    case DoConsume(i) => ConsumeAdvances(a, i);
    case DoLaunch(i) => LaunchAdvances(a, i);
    case DoClose(i) => CloseAdvances(a, i);
    case _ =>
  }

  lemma InternalIs(step: Step)
    requires Internal(step)
    ensures !step.DoSubmit? && !step.DoAutonomous? && !step.DoDurable?
  {
  }

  lemma StepLowersMeasure(a: Arbiter, t: Tables, step: Step)
    requires CanTake(a, step) && Internal(step)
    ensures Measure(Take(a, t, step).0) < Measure(a)
  {
    hide *;
    StepAdvances(a, t, step);
    AdvanceLowersMeasure(a, Take(a, t, step).0, Focus(a, step));
  }

  /** The first submission not yet done; everything before it is. */
  function FirstOpen(tasks: seq<Task>, from: nat): nat
    decreases |tasks| - from
  {
    if from >= |tasks| || !tasks[from].phase.Done() then from else FirstOpen(tasks, from + 1)
  }

  lemma {:induction false} FirstOpenIsFirst(tasks: seq<Task>, from: nat)
    requires from <= |tasks| && forall j :: 0 <= j < from ==> tasks[j].phase.Done()
    ensures FirstOpen(tasks, from) <= |tasks|
    ensures forall j :: 0 <= j < FirstOpen(tasks, from) ==> tasks[j].phase.Done()
    ensures FirstOpen(tasks, from) < |tasks| ==> !tasks[FirstOpen(tasks, from)].phase.Done()
    decreases |tasks| - from
  {
    if from < |tasks| && tasks[from].phase.Done() { FirstOpenIsFirst(tasks, from + 1); }
  }

  /** Some internal step is enabled as long as a submission is not closed, whatever the environment answers. */
  lemma NeverStuck(a: Arbiter, open: nat, env: Surroundings, gate: Gate, reply: Reply) returns (step: Step)
    requires Lanes(a) && open < |a.tasks| && !a.tasks[open].phase.Closed?
    ensures Internal(step) && CanTake(a, step)
  {
    if a.turn < |a.tasks| {
      step := if a.tasks[a.turn].phase.Queued? then DoBegin(env) else DoResume(gate, env);
    } else if a.tasks[open].phase.Settled? {
      step := DoClose(open);
    } else {
      FirstOpenIsFirst(a.tasks, 0);
      var i := FirstOpen(a.tasks, 0);
      assert i <= open;
      assert FollowsLast(a.tasks, i);
      match a.tasks[i].phase {
        case Refused(_) => step := DoConsume(i);
        case Accepted(_) => step := DoConsume(i);
        case Fenced(_, fence, _) => step := DoLaunch(i);
        case Executing(_) => step := DoFinish(i, false, reply, true, reply);
        case Settled(_, _) => assert false;
        case Closed(_, _) => assert false;
        case Queued => assert false;
        case Checking => assert false;
      }
    }
  }

  ghost predicate InternalRun(a: Arbiter, t: Tables, steps: seq<Step>)
    decreases |steps|
  {
    steps == []
    || (Internal(steps[0]) && CanTake(a, steps[0])
        && InternalRun(Take(a, t, steps[0]).0, Take(a, t, steps[0]).1, steps[1..]))
  }

  ghost function Outcome(a: Arbiter, t: Tables, steps: seq<Step>): (Arbiter, Tables)
    requires InternalRun(a, t, steps)
    decreases |steps|
  {
    if steps == [] then (a, t) else Outcome(Take(a, t, steps[0]).0, Take(a, t, steps[0]).1, steps[1..])
  }

  /**
   Every internal run is shorter than a measure of its start, and one that cannot be continued has closed every
   submission: no chain of admission, normal and cancel tails can wait on itself.
   */
  lemma {:induction false} InternalRunsEndWithAllClosed(a: Arbiter, t: Tables, steps: seq<Step>)
    requires Lanes(a) && a.clock <= Revision(t, a.session) && InternalRun(a, t, steps)
    ensures Lanes(Outcome(a, t, steps).0)
    ensures |steps| + Measure(Outcome(a, t, steps).0) <= Measure(a)
    ensures (forall step :: Internal(step) ==> !CanTake(Outcome(a, t, steps).0, step)) ==>
              forall i :: 0 <= i < |Outcome(a, t, steps).0.tasks| ==> Outcome(a, t, steps).0.tasks[i].phase.Closed?
    decreases |steps|
  {
    if steps == [] {
      if i :| 0 <= i < |a.tasks| && !a.tasks[i].phase.Closed? {
        var step := NeverStuck(a, i, Surroundings(false, Holds, false, Undefined), Proceed, Undefined);
      }
    } else {
      var (b, u) := Take(a, t, steps[0]);
      StepLowersMeasure(a, t, steps[0]);
      StepKeepsLanes(a, t, steps[0]);
      StepEffect(a, t, steps[0]);
      InternalRunsEndWithAllClosed(b, u, steps[1..]);
    }
  }
}

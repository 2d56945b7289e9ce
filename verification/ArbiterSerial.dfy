/**
 Serial admission: over every run with one arbiter per session, each admission finds the
 durable revision and moves it by exactly one.
 */
module ArbiterSerial {
  import opened Base
  import opened ReceiptTables
  import opened ArbiterModel
  import opened ArbiterLanes
  import opened ArbiterWorld
  import opened ArbiterTheorems

  // ---- one admission ---------------------------------------------------------------------

  // No rebase flag, no identity check and no precondition: only the expected revision decides.
  predicate Plain(req: Request) {
    !req.acceptLatest && !req.checksIdentity && !req.checksPrecondition
  }

  lemma CommitAccepts(a: Arbiter, t: Tables, env: Surroundings)
    requires a.turn < |a.tasks|
    ensures var (b, u) := Commit(a, t, env);
            && b.tasks == a.tasks[a.turn := a.tasks[a.turn].(phase := b.tasks[a.turn].phase)]
            && (b.tasks[a.turn].phase.Accepted? <==>
                  !env.admitThrows && RefOf(a, a.tasks[a.turn].req) !in t.receipts && IsSafeInteger(Revision(t, a.session) + 1))
            && (b.tasks[a.turn].phase.Accepted? ==>
                  b.tasks[a.turn].phase.revision == Revision(t, a.session) + 1 == Revision(u, a.session))
            && (!b.tasks[a.turn].phase.Accepted? ==>
                  b.tasks[a.turn].phase.Refused? && Revision(u, a.session) == Revision(t, a.session))
  {
  }

  lemma BeginAccepts(a: Arbiter, t: Tables, env: Surroundings)
    requires CanBegin(a)
    ensures var (b, u), req := Begin(a, t, env), a.tasks[a.turn].req;
            && a.turn < |b.tasks|
            && (b.tasks[a.turn].phase.Accepted? ==> Begin(a, t, env) == Commit(a, t, env) && Fresh(a, req, env))
            && (b.tasks[a.turn].phase.Checking? ==> req.checksPrecondition)
  {
    CommitAccepts(a, t, env);
  }

  // What a step that admits its submission does to the durable revision.
  lemma AdmissionIncrements(a: Arbiter, t: Tables, step: Step)
    requires CanTake(a, step) && a.clock == Revision(t, a.session) && Checked(a)
    requires Admits(a, Take(a, t, step).0, Focus(a, step))
    ensures var (b, u), k := Take(a, t, step), Focus(a, step);
            && Admission(b.tasks[k].phase) == Some(Revision(t, a.session) + 1)
            && Revision(u, a.session) == Revision(t, a.session) + 1
            && (Plain(a.tasks[k].req) ==>
                  a.tasks[k].req.expectedRevision == Revision(t, a.session)
                  || (StalePreemptiveCancel(a, a.tasks[k].req) && a.tasks[k].req.expectedRevision < Revision(t, a.session)))
  {
    hide *;
    TakeIs(a, t, step);
    OnlyAdmissionAdmits(a, t, step);
    match step
    case DoBegin(env) =>
      CommitAccepts(a, t, env);
      BeginAccepts(a, t, env);
      FreshIs(a, a.tasks[a.turn].req, env);
    case DoResume(gate, env) =>
      CommitAccepts(a, t, env);
      ResumeIs(a, t, gate, env);
      RefuseMoves(a, if gate.Proceed? then Undefined else gate.reply);
      CheckedIs(a, a.turn);
    case _ =>
  }

  lemma FreshIs(a: Arbiter, req: Request, env: Surroundings)
    ensures Plain(req) ==> (Fresh(a, req, env) <==> a.clock == req.expectedRevision || StalePreemptiveCancel(a, req))
    ensures Plain(req) ==> !req.checksPrecondition
    ensures StalePreemptiveCancel(a, req) ==> req.lane.Cancel? && req.expectedRevision < a.clock
  {
  }

  lemma OnlyAdmissionAdmits(a: Arbiter, t: Tables, step: Step)
    requires CanTake(a, step) && Admits(a, Take(a, t, step).0, Focus(a, step))
    ensures (step.DoBegin? || step.DoResume?) && Focus(a, step) == a.turn < |a.tasks| == |Take(a, t, step).0.tasks|
    ensures Take(a, t, step).0.tasks[a.turn].phase.Accepted?
    ensures Admission(Take(a, t, step).0.tasks[a.turn].phase) == Some(Take(a, t, step).0.tasks[a.turn].phase.revision)
  {
    hide *;
    TakeIs(a, t, step);
    FocusIs(a, step);
    AdmitsIs(a, Take(a, t, step).0, Focus(a, step));
    match step
    case DoBegin(env) => BeginIs(a, t, env); BeginLeaves(a, t, env);
    case DoResume(gate, env) => ResumeIs(a, t, gate, env); ResumeLeaves(a, t, gate, env);
    case _ => OthersAdmitNothing(a, t, step);
  }

  lemma AdmitsIs(a: Arbiter, b: Arbiter, k: nat)
    requires Admits(a, b, k)
    ensures k < |a.tasks| && k < |b.tasks| && Admission(b.tasks[k].phase).Some?
    ensures b.tasks[k].phase.Accepted? ==> Admission(b.tasks[k].phase) == Some(b.tasks[k].phase.revision)
    ensures !b.tasks[k].phase.Refused? && !b.tasks[k].phase.Checking?
  {
  }

  // Before execution, a submission is refused, accepted or checked.
  lemma BeginLeaves(a: Arbiter, t: Tables, env: Surroundings)
    requires CanBegin(a)
    ensures var b := Begin(a, t, env).0;
            && |b.tasks| == |a.tasks| && a.turn < |b.tasks|
            && (b.tasks[a.turn].phase.Refused? || b.tasks[a.turn].phase.Checking? || b.tasks[a.turn].phase.Accepted?)
  {
    CommitAccepts(a, t, env);
  }

  lemma ResumeLeaves(a: Arbiter, t: Tables, gate: Gate, env: Surroundings)
    requires CanResume(a)
    ensures var b := Resume(a, t, gate, env).0;
            && |b.tasks| == |a.tasks| && a.turn < |b.tasks|
            && (b.tasks[a.turn].phase.Refused? || b.tasks[a.turn].phase.Accepted?)
  {
    CommitAccepts(a, t, env);
  }

  lemma OthersAdmitNothing(a: Arbiter, t: Tables, step: Step)
    requires CanTake(a, step) && !step.DoBegin? && !step.DoResume?
    ensures !Admits(a, Take(a, t, step).0, Focus(a, step))
  {
  }

  // ---- only preconditions are checked ------------------------------------------------------

  ghost predicate Checked(a: Arbiter) {
    forall i :: 0 <= i < |a.tasks| && a.tasks[i].phase.Checking? ==> a.tasks[i].req.checksPrecondition
  }

  lemma CheckedIs(a: Arbiter, i: nat)
    requires Checked(a) && i < |a.tasks| && a.tasks[i].phase.Checking?
    ensures !Plain(a.tasks[i].req)
  {
  }

  // A step leaves a submission checking only if it has a precondition.
  lemma StepChecks(a: Arbiter, t: Tables, step: Step)
    requires CanTake(a, step) && Checked(a) && a.clock <= Revision(t, a.session)
    ensures Checked(Take(a, t, step).0)
  {
    hide *;
    TakeIs(a, t, step);
    StepEffect(a, t, step);
    FocusChecks(a, t, step);
    OthersChecked(a, t, step, Take(a, t, step).0, Take(a, t, step).1);
  }

  lemma FocusChecks(a: Arbiter, t: Tables, step: Step)
    requires CanTake(a, step)
    ensures var (b, k) := (Take(a, t, step).0, Focus(a, step));
            k < |a.tasks| && k < |b.tasks| && b.tasks[k].phase.Checking? ==> a.tasks[k].req.checksPrecondition
  {
    match step
    case DoBegin(env) => BeginAccepts(a, t, env);
    case DoResume(gate, env) => CommitAccepts(a, t, env);
    case _ =>
  }

  lemma OthersChecked(a: Arbiter, t: Tables, step: Step, b: Arbiter, u: Tables)
    requires CanTake(a, step) && Checked(a) && Effect(a, t, step, b, u)
    requires var k := Focus(a, step);
             k < |a.tasks| && k < |b.tasks| && b.tasks[k].phase.Checking? ==> a.tasks[k].req.checksPrecondition
    ensures Checked(b)
  {
  }

  ghost predicate AllChecked(w: World) {
    forall id :: id in w.arbiters ==> Checked(w.arbiters[id])
  }

  lemma NextChecks(w: World, act: Action)
    requires Inv(w) && AllChecked(w) && Enabled(w, act)
    ensures AllChecked(Next(w, act))
  {
    if act.Run? {
      ArbiterInStep(w, act.id);
      StepChecks(w.arbiters[act.id], w.tables, act.step);
    }
  }

  // ---- every admission of a run ------------------------------------------------------------

  /** The action admits submission `i` of arbiter `id` at revision `r`, one above the durable revision it finds. */
  ghost predicate AdmitsNext(w: World, act: Action, id: nat, i: nat, req: Request, r: nat) {
    && act.Run? && act.id == id && Enabled(w, act)
    && var a, x := w.arbiters[id], Next(w, act);
       && id in x.arbiters && Admits(a, x.arbiters[id], i) && a.tasks[i].req == req
       && Admission(x.arbiters[id].tasks[i].phase) == Some(r)
       && Revision(w.tables, a.session) + 1 == r == Revision(x.tables, a.session)
       && (forall s :: s != a.session ==> Revision(x.tables, s) == Revision(w.tables, s))
       && (Plain(req) ==> r == req.expectedRevision + 1 || (StalePreemptiveCancel(a, req) && req.expectedRevision < r))
  }

  ghost predicate AdmitsAlong(w: World, acts: seq<Action>, id: nat, i: nat, req: Request, r: nat)
    requires Legal(w, acts)
    decreases |acts|
  {
    acts != [] && (AdmitsNext(w, acts[0], id, i, req, r) || AdmitsAlong(Next(w, acts[0]), acts[1..], id, i, req, r))
  }

  predicate AdmittedAt(w: World, id: nat, i: nat, req: Request, r: nat) {
    && id in w.arbiters && i < |w.arbiters[id].tasks|
    && w.arbiters[id].tasks[i].req == req && Admission(w.arbiters[id].tasks[i].phase) == Some(r)
  }

  lemma NextAdmits(w: World, act: Action, id: nat, i: nat, req: Request, r: nat)
    requires Inv(w) && InStep(w) && AllChecked(w) && Enabled(w, act)
    requires AdmittedAt(Next(w, act), id, i, req, r)
    ensures AdmittedAt(w, id, i, req, r) || AdmitsNext(w, act, id, i, req, r)
  {
    match act
    case Run(m, step) =>
      if m == id { RunAdmits(w, id, step, i, req, r); } else { RunSpares(w, m, step, id); }
    case OpenArbiter(_, _, _) =>
    case DropArbiter(_) =>
    case Recover =>
    case Reopen(_) =>
  }

  lemma RunSpares(w: World, m: nat, step: Step, id: nat)
    requires Enabled(w, Run(m, step)) && m != id && id in Next(w, Run(m, step)).arbiters
    ensures id in w.arbiters && Next(w, Run(m, step)).arbiters[id] == w.arbiters[id]
  {
  }

  lemma RunAdmits(w: World, id: nat, step: Step, i: nat, req: Request, r: nat)
    requires Inv(w) && InStep(w) && AllChecked(w) && Enabled(w, Run(id, step))
    requires AdmittedAt(Next(w, Run(id, step)), id, i, req, r)
    ensures AdmittedAt(w, id, i, req, r) || AdmitsNext(w, Run(id, step), id, i, req, r)
  {
    hide *;
    RunIs(w, id, step);
    WorldParts(w, id);
    var a := w.arbiters[id];
    StepEffect(a, w.tables, step);
    var (b, u) := Take(a, w.tables, step);
    AdmittedIs(Next(w, Run(id, step)), id, i, req, r);
    NewlyAdmitted(a, w.tables, step, b, u, i, r);
    if Admission(a.tasks[i].phase) == Some(r) {
      IsAdmitted(w, id, i, req, r);
    } else {
      StepInStep(a, w.tables, step);
      AdmissionIncrements(a, w.tables, step);
      assert r == Revision(w.tables, a.session) + 1;
      IsNext(w, step, id, i, req, r);
    }
  }

  lemma WorldParts(w: World, id: nat)
    requires Inv(w) && InStep(w) && AllChecked(w) && id in w.arbiters
    ensures var a := w.arbiters[id]; a.clock == Revision(w.tables, a.session) && Checked(a)
  {
  }

  lemma AdmittedIs(w: World, id: nat, i: nat, req: Request, r: nat)
    requires AdmittedAt(w, id, i, req, r)
    ensures id in w.arbiters && i < |w.arbiters[id].tasks|
    ensures w.arbiters[id].tasks[i].req == req && Admission(w.arbiters[id].tasks[i].phase) == Some(r)
  {
  }

  lemma IsAdmitted(w: World, id: nat, i: nat, req: Request, r: nat)
    requires id in w.arbiters && i < |w.arbiters[id].tasks|
    requires w.arbiters[id].tasks[i].req == req && Admission(w.arbiters[id].tasks[i].phase) == Some(r)
    ensures AdmittedAt(w, id, i, req, r)
  {
  }

  lemma NewlyAdmitted(a: Arbiter, t: Tables, step: Step, b: Arbiter, u: Tables, i: nat, r: nat)
    requires CanTake(a, step) && Effect(a, t, step, b, u) && i < |b.tasks| && Admission(b.tasks[i].phase) == Some(r)
    ensures i < |a.tasks| && b.tasks[i].req == a.tasks[i].req
    ensures Admission(a.tasks[i].phase) == Some(r) || (Admits(a, b, i) && Focus(a, step) == i)
  {
  }

  lemma IsNext(w: World, step: Step, id: nat, i: nat, req: Request, r: nat)
    requires Enabled(w, Run(id, step)) && id in w.arbiters && id in Next(w, Run(id, step)).arbiters
    requires var a, x := w.arbiters[id], Next(w, Run(id, step));
             && Admits(a, x.arbiters[id], i) && a.tasks[i].req == req
             && Admission(x.arbiters[id].tasks[i].phase) == Some(r)
             && Revision(w.tables, a.session) + 1 == r == Revision(x.tables, a.session)
             && (forall s :: s != a.session ==> Revision(x.tables, s) == Revision(w.tables, s))
             && (Plain(req) ==> r == req.expectedRevision + 1 || (StalePreemptiveCancel(a, req) && req.expectedRevision < r))
    ensures AdmitsNext(w, Run(id, step), id, i, req, r)
  {
  }

  lemma {:induction false} RunsAdmit(w: World, acts: seq<Action>, id: nat, i: nat, req: Request, r: nat)
    requires Inv(w) && InStep(w) && AllChecked(w) && Legal(w, acts) && ExclusiveRun(w, acts)
    requires AdmittedAt(After(w, acts), id, i, req, r)
    ensures AdmittedAt(w, id, i, req, r) || AdmitsAlong(w, acts, id, i, req, r)
    decreases |acts|
  {
    if acts != [] {
      var x := Next(w, acts[0]);
      NextKeepsInv(w, acts[0]);
      ExclusiveStep(w, acts);
      NextInStep(w, acts[0]);
      NextChecks(w, acts[0]);
      RunsAdmit(x, acts[1..], id, i, req, r);
      if AdmittedAt(x, id, i, req, r) { NextAdmits(w, acts[0], id, i, req, r); }
    }
  }

  lemma ExclusiveStep(w: World, acts: seq<Action>)
    requires Inv(w) && acts != [] && Legal(w, acts) && ExclusiveRun(w, acts)
    ensures Exclusive(w) && Exclusive(Next(w, acts[0])) && ExclusiveRun(Next(w, acts[0]), acts[1..])
    ensures w.issued !in w.arbiters
  {
  }

  // ---- main results ------------------------------------------------------------------------

  /**
   With one arbiter per session, every admitted submission was admitted by one action of the run that found the
   durable revision one below the accepted one and moved it by exactly one, no other session's; a submission that
   only its expected revision decides on, unless it was an exempted stale cancel, had expected the revision found.
   */
  lemma AdmissionsAreSerial(t: Tables, acts: seq<Action>, id: nat, i: nat, r: nat)
    requires Valid(t) && Legal(Boot(t), acts) && ExclusiveRun(Boot(t), acts)
    requires var w := After(Boot(t), acts);
             id in w.arbiters && i < |w.arbiters[id].tasks| && Admission(w.arbiters[id].tasks[i].phase) == Some(r)
    ensures AdmitsAlong(Boot(t), acts, id, i, After(Boot(t), acts).arbiters[id].tasks[i].req, r)
  {
    BootInv(t);
    RunsAdmit(Boot(t), acts, id, i, After(Boot(t), acts).arbiters[id].tasks[i].req, r);
  }

  lemma {:induction false} AlongIsPlain(w: World, acts: seq<Action>, id: nat, i: nat, req: Request, r: nat)
    requires Legal(w, acts) && AdmitsAlong(w, acts, id, i, req, r) && Plain(req)
    ensures req.expectedRevision < r && (req.lane.Cancel? || r == req.expectedRevision + 1)
    decreases |acts|
  {
    if AdmitsNext(w, acts[0], id, i, req, r) {
      FreshIs(w.arbiters[id], req, Surroundings(false, Holds, false, Undefined));
    } else {
      AlongIsPlain(Next(w, acts[0]), acts[1..], id, i, req, r);
    }
  }

  /**
   In every reachable state an admitted submission that only its expected revision decides on holds the revision one
   above the expected one; on the cancel lane it may hold a later one, never an earlier.
   */
  lemma PlainAdmissionsHoldTheNextRevision(t: Tables, acts: seq<Action>, id: nat, i: nat, r: nat)
    requires Valid(t) && Legal(Boot(t), acts) && ExclusiveRun(Boot(t), acts)
    requires var w := After(Boot(t), acts);
             && id in w.arbiters && i < |w.arbiters[id].tasks| && Plain(w.arbiters[id].tasks[i].req)
             && Admission(w.arbiters[id].tasks[i].phase) == Some(r)
    ensures var req := After(Boot(t), acts).arbiters[id].tasks[i].req;
            req.expectedRevision < r && (req.lane.Cancel? || r == req.expectedRevision + 1)
  {
    AdmissionsAreSerial(t, acts, id, i, r);
    AlongIsPlain(Boot(t), acts, id, i, After(Boot(t), acts).arbiters[id].tasks[i].req, r);
  }

  /**
   Admission is a compare-and-increment of the durable revision. In every reachable state, a submission at its turn
   that only its expected revision decides on is accepted exactly when its key is new, nothing throws, the next
   revision is representable and it expects the durable revision or is an exempted stale cancel. It then gets the
   next revision; otherwise the revision stands.
   */
  lemma PlainAdmissionIsCompareAndIncrement(t: Tables, acts: seq<Action>, id: nat, env: Surroundings)
    requires Valid(t) && Legal(Boot(t), acts) && ExclusiveRun(Boot(t), acts)
    requires var w := After(Boot(t), acts);
             id in w.arbiters && CanBegin(w.arbiters[id]) && Plain(w.arbiters[id].tasks[w.arbiters[id].turn].req)
    ensures var w := After(Boot(t), acts);
            var a := w.arbiters[id];
            var durable, req, (b, u) := Revision(w.tables, a.session), a.tasks[a.turn].req, Begin(a, w.tables, env);
            && (b.tasks[a.turn].phase.Accepted? <==>
                  && !env.lookupThrows && !env.admitThrows && RefOf(a, req) !in w.tables.receipts && IsSafeInteger(durable + 1)
                  && (req.expectedRevision == durable || StalePreemptiveCancel(a, req)))
            && (b.tasks[a.turn].phase.Accepted? ==> b.tasks[a.turn].phase.revision == durable + 1 == Revision(u, a.session))
            && (!b.tasks[a.turn].phase.Accepted? ==> Revision(u, a.session) == durable)
  {
    hide *;
    BootInStep(t);
    ClockFollowsLedger(Boot(t), acts);
    var w := After(Boot(t), acts);
    ClockIs(w, id);
    PlainBegin(w.arbiters[id], w.tables, env);
  }

  lemma BootInStep(t: Tables)
    requires Valid(t)
    ensures Inv(Boot(t)) && InStep(Boot(t)) && AllChecked(Boot(t))
  {
    BootInv(t);
  }

  lemma ClockIs(w: World, id: nat)
    requires InStep(w) && id in w.arbiters
    ensures w.arbiters[id].clock == Revision(w.tables, w.arbiters[id].session)
  {
  }

  lemma PlainBegin(a: Arbiter, t: Tables, env: Surroundings)
    requires CanBegin(a) && a.clock == Revision(t, a.session) && Plain(a.tasks[a.turn].req)
    ensures var durable, req, (b, u) := Revision(t, a.session), a.tasks[a.turn].req, Begin(a, t, env);
            && a.turn < |b.tasks|
            && (b.tasks[a.turn].phase.Accepted? <==>
                  && !env.lookupThrows && !env.admitThrows && RefOf(a, req) !in t.receipts && IsSafeInteger(durable + 1)
                  && (req.expectedRevision == durable || StalePreemptiveCancel(a, req)))
            && (b.tasks[a.turn].phase.Accepted? ==> b.tasks[a.turn].phase.revision == durable + 1 == Revision(u, a.session))
            && (!b.tasks[a.turn].phase.Accepted? ==> Revision(u, a.session) == durable)
  {
    CommitAccepts(a, t, env);
  }
}

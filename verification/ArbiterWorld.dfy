/**
 Any number of arbiters, opened and lost at any time, on one durable ledger. The world
 also records which submission owns each receipt and every start of an execution.
 */
module ArbiterWorld {
  import opened Base
  import opened ReceiptTables
  import opened ArbiterModel
  import opened ArbiterLanes

  datatype Execution = Execution(arbiter: nat, task: nat, ref: Ref, fingerprint: string, revision: nat, normal: bool)

  datatype Owner = Owner(arbiter: nat, task: nat)

  datatype World = World(
    tables: Tables,
    arbiters: map<nat, Arbiter>,
    issued: nat,
    owner: map<Ref, Owner>,
    log: seq<Execution>)

  /** A process crash is a DropArbiter for each arbiter it held. */
  datatype Action =
    | OpenArbiter(session: string, domain: string, clock: nat)
    | DropArbiter(id: nat)
    | Recover
    | Reopen(ref: Ref)
    | Run(id: nat, step: Step)

  predicate Enabled(w: World, act: Action) {
    match act
    case OpenArbiter(_, _, clock) => IsSafeInteger(clock)
    case DropArbiter(_) => true
    case Recover => true
    case Reopen(_) => true
    case Run(id, step) => id in w.arbiters && CanTake(w.arbiters[id], step)
  }

  function Admission(p: Phase): Option<nat> {
    if p.Held() then Some(p.revision) else if p.Done() then p.admitted else None
  }

  /** The submission a step works on. */
  function Focus(a: Arbiter, step: Step): nat {
    match step
    case DoBegin(_) => a.turn
    case DoResume(_, _) => a.turn
    case DoConsume(i) => i
    case DoLaunch(i) => i
    case DoFinish(i, _, _, _, _) => i
    case DoClose(i) => i
    case DoSubmit(_, _, _) => |a.tasks|
    case DoAutonomous => |a.tasks|
    case DoDurable(_) => |a.tasks|
  }

  predicate Admits(a: Arbiter, b: Arbiter, k: nat) {
    k < |a.tasks| && k < |b.tasks| && Admission(a.tasks[k].phase).None? && Admission(b.tasks[k].phase).Some?
  }

  predicate Starts(a: Arbiter, b: Arbiter, k: nat) {
    k < |a.tasks| && k < |b.tasks| && !a.tasks[k].phase.Executing? && b.tasks[k].phase.Executing?
  }

  function ExecutionOf(id: nat, k: nat, b: Arbiter): Execution
    requires k < |b.tasks| && b.tasks[k].phase.Executing?
  {
    var req := b.tasks[k].req;
    Execution(id, k, RefOf(b, req), req.fingerprint, b.tasks[k].phase.revision, req.lane.Normal?)
  }

  function Next(w: World, act: Action): World
    requires Enabled(w, act)
  {
    match act
    case OpenArbiter(session, domain, clock) =>
      var (a, u) := Open(w.tables, session, domain, clock);
      w.(tables := u, arbiters := w.arbiters[w.issued := a], issued := w.issued + 1)
    case DropArbiter(id) => w.(arbiters := w.arbiters - {id})
    case Recover => w.(tables := RecoverInDoubt(w.tables))
    case Reopen(ref) => w.(tables := ReopenMutation(w.tables, ref))
    case Run(id, step) =>
      var a := w.arbiters[id];
      var (b, u) := Take(a, w.tables, step);
      var k := Focus(a, step);
      World(u, w.arbiters[id := b], w.issued,
            if Admits(a, b, k) then w.owner[RefOf(a, a.tasks[k].req) := Owner(id, k)] else w.owner,
            if Starts(a, b, k) then w.log + [ExecutionOf(id, k, b)] else w.log)
  }

  ghost predicate Legal(w: World, acts: seq<Action>)
    decreases |acts|
  {
    acts == [] || (Enabled(w, acts[0]) && Legal(Next(w, acts[0]), acts[1..]))
  }

  ghost function After(w: World, acts: seq<Action>): World
    requires Legal(w, acts)
    decreases |acts|
  {
    if acts == [] then w else After(Next(w, acts[0]), acts[1..])
  }

  function Boot(t: Tables): World {
    World(t, map[], 0, map[], [])
  }

  // ---- invariant -------------------------------------------------------------------------

  /** The receipt of an admitted submission, as the ledger must hold it. */
  predicate Faithful(p: Phase, req: Request, r: Receipt) {
    && r.fingerprint == req.fingerprint
    && Admission(p) == Some(r.acceptedRevision)
    && (p.Held() ==> !r.status.Terminal())
    && (p.Done() && r.status.Terminal() ==> r.result == Stored(p.reply))
  }

  predicate TaskBacked(a: Arbiter, t: Tables, owner: map<Ref, Owner>, id: nat, i: nat)
    requires i < |a.tasks|
  {
    Admission(a.tasks[i].phase).Some? ==>
      var ref := RefOf(a, a.tasks[i].req);
      && ref in owner && owner[ref] == Owner(id, i)
      && ref in t.receipts && Faithful(a.tasks[i].phase, a.tasks[i].req, t.receipts[ref])
  }

  ghost predicate Backed(a: Arbiter, t: Tables, owner: map<Ref, Owner>, id: nat) {
    && a.session in t.sessions
    && a.clock <= Revision(t, a.session)
    && (forall i {:trigger TaskBacked(a, t, owner, id, i)} :: 0 <= i < |a.tasks| ==> TaskBacked(a, t, owner, id, i))
  }

  ghost predicate EntryBacked(w: World, e: Execution) {
    && e.ref in w.owner && w.owner[e.ref] == Owner(e.arbiter, e.task)
    && e.arbiter < w.issued
    && e.ref in w.tables.receipts
    && w.tables.receipts[e.ref].fingerprint == e.fingerprint
    && w.tables.receipts[e.ref].acceptedRevision == e.revision
    && (e.arbiter in w.arbiters ==> Started(w.arbiters[e.arbiter], e))
  }

  predicate Started(a: Arbiter, e: Execution) {
    && e.task < |a.tasks|
    && (a.tasks[e.task].phase.Executing? || a.tasks[e.task].phase.Done())
    && a.tasks[e.task].req.lane.Normal? == e.normal
  }

  ghost predicate LogOrdered(log: seq<Execution>) {
    && (forall j, k :: 0 <= j < k < |log| ==> log[j].ref != log[k].ref)
    && (forall j, k :: 0 <= j < k < |log| && log[j].arbiter == log[k].arbiter && log[j].normal && log[k].normal ==>
          log[j].task < log[k].task)
  }

  ghost predicate Inv(w: World) {
    && Valid(w.tables)
    && ArbitersOk(w)
    && (forall ref :: ref in w.owner ==> ref in w.tables.receipts)
    && (forall e :: e in w.log ==> EntryBacked(w, e))
    && LogOrdered(w.log)
  }

  // ---- what one arbiter step does to the tables and to the submissions ------------------------

  /** Only `touched` may have become terminal. */
  ghost predicate Changes(t: Tables, u: Tables, touched: Option<Ref>) {
    && Grows(t, u)
    && (forall ref :: ref in t.receipts && u.receipts[ref].status.Terminal() && touched != Some(ref) ==>
          u.receipts[ref] == t.receipts[ref])
  }

  function Touched(a: Arbiter, step: Step): Option<Ref>
    requires CanTake(a, step)
  {
    if step.DoFinish? then Some(RefOf(a, a.tasks[step.task].req)) else None
  }

  ghost predicate Effect(a: Arbiter, t: Tables, step: Step, b: Arbiter, u: Tables)
    requires CanTake(a, step)
  {
    var k := Focus(a, step);
    && b.session == a.session && b.domain == a.domain
    && b.clock <= Revision(u, b.session)
    && |a.tasks| <= |b.tasks|
    && (forall i :: 0 <= i < |a.tasks| ==> b.tasks[i].req == a.tasks[i].req)
    && (forall i :: 0 <= i < |a.tasks| && i != k ==> b.tasks[i].phase == a.tasks[i].phase)
    && (forall i :: |a.tasks| <= i < |b.tasks| ==> b.tasks[i].phase.Queued?)
    && (k < |a.tasks| ==>
          PhaseEffect(a.tasks[k].req, RefOf(a, a.tasks[k].req), a.tasks[k].phase, b.tasks[k].phase, t, u, step.DoFinish?))
  }

  /** What a step may make of the phase of the submission it works on. */
  predicate PhaseEffect(req: Request, ref: Ref, p: Phase, q: Phase, t: Tables, u: Tables, finishing: bool) {
    && (Admission(p).Some? ==> Admission(q) == Admission(p))
    && (Admission(p).None? && Admission(q).Some? ==>
          q.Held() && ref !in t.receipts && ref in u.receipts
          && u.receipts[ref] == Receipt(req.fingerprint, Admitted, q.revision, None))
    && (p.Refused? ==> q.Refused? || q.Done())
    && (p.Refused? && (q.Refused? || q.Done()) ==> q.reply == p.reply)
    && (!finishing && p.Done() ==> q.Done() && q.reply == p.reply)
    && (!finishing && p.Held() ==> q.Held())
    && (finishing ==> p.Held() && q.Done())
    && (finishing && ref in t.receipts && !t.receipts[ref].status.Terminal()
        && ref in u.receipts && u.receipts[ref].status.Terminal() ==>
          u.receipts[ref].result == Stored(q.reply))
    && (!p.Executing? && q.Executing? ==> (p.Accepted? && !req.lane.Normal?) || p.Fenced?)
    && (p.Executing? || p.Done() ==> q.Executing? || q.Done())
  }

  // ---- tables ----------------------------------------------------------------------------------

  lemma CommitTables(a: Arbiter, t: Tables, env: Surroundings)
    requires a.turn < |a.tasks|
    ensures var u := Commit(a, t, env).1;
            var req := a.tasks[a.turn].req;
            u == t || u == AdmitMutation(t, RefOf(a, req), req.fingerprint).0
  {
  }

  lemma BeginTables(a: Arbiter, t: Tables, env: Surroundings)
    requires CanBegin(a)
    ensures Begin(a, t, env).1 == t || Begin(a, t, env).1 == Commit(a, t, env).1
  {
  }

  lemma ResumeTables(a: Arbiter, t: Tables, gate: Gate, env: Surroundings)
    requires CanResume(a)
    ensures Resume(a, t, gate, env).1 == t || Resume(a, t, gate, env).1 == Commit(a, t, env).1
  {
  }

  lemma FinishTables(a: Arbiter, t: Tables, i: nat, failed: bool, reply: Reply, storable: bool, fail: Reply)
    requires CanFinish(a, i)
    ensures var done := CompleteMutation(t, RefOf(a, a.tasks[i].req), if failed then Failed else Completed, Stored(reply));
            var u := Finish(a, t, i, failed, reply, storable, fail).1;
            u == t || (done.Some? && u == done.value)
  {
  }

  lemma PublishTables(a: Arbiter, t: Tables, revision: int)
    ensures var u := PublishAutonomous(a, t).1;
            u == t || (IsSafeInteger(a.clock + 1) && u == SeedSessionRevision(t, a.session, a.clock + 1))
    ensures var u := PublishDurable(a, t, revision).1;
            u == t || (IsSafeInteger(revision) && revision >= 0 && u == SeedSessionRevision(t, a.session, revision))
  {
  }

  lemma SameChanges(t: Tables, touched: Option<Ref>)
    ensures Changes(t, t, touched)
  {
  }

  lemma AdmitChanges(t: Tables, ref: Ref, fingerprint: string)
    requires Valid(t)
    ensures Valid(AdmitMutation(t, ref, fingerprint).0) && Changes(t, AdmitMutation(t, ref, fingerprint).0, None)
  {
    AdmitKeeps(t, ref, fingerprint);
    AdmitAdds(t, ref, fingerprint);
  }

  lemma AdmitAdds(t: Tables, ref: Ref, fingerprint: string)
    ensures forall r :: r in t.receipts ==>
              r in AdmitMutation(t, ref, fingerprint).0.receipts && AdmitMutation(t, ref, fingerprint).0.receipts[r] == t.receipts[r]
  {
  }

  lemma CompleteChanges(t: Tables, ref: Ref, status: Status, result: Option<Reply>)
    requires Valid(t) && status.Terminal() && CompleteMutation(t, ref, status, result).Some?
    ensures Valid(CompleteMutation(t, ref, status, result).value)
    ensures Changes(t, CompleteMutation(t, ref, status, result).value, Some(ref))
  {
    CompleteKeeps(t, ref, status, result);
    CompleteOnly(t, ref, status, result);
  }

  lemma CompleteOnly(t: Tables, ref: Ref, status: Status, result: Option<Reply>)
    requires CompleteMutation(t, ref, status, result).Some?
    ensures var u := CompleteMutation(t, ref, status, result).value;
            forall r :: r in t.receipts && r != ref ==> r in u.receipts && u.receipts[r] == t.receipts[r]
  {
  }

  lemma SeedChanges(t: Tables, session: string, revision: nat)
    requires Valid(t) && IsSafeInteger(revision)
    ensures Valid(SeedSessionRevision(t, session, revision))
    ensures Changes(t, SeedSessionRevision(t, session, revision), None)
  {
    SeedKeeps(t, session, revision);
  }

  lemma StepTables(a: Arbiter, t: Tables, step: Step)
    requires Valid(t) && CanTake(a, step)
    ensures Valid(Take(a, t, step).1) && Changes(t, Take(a, t, step).1, Touched(a, step))
  {
    hide *;
    TakeIs(a, t, step);
    SameChanges(t, Touched(a, step));
    match step
    case DoBegin(env) =>
      BeginTables(a, t, env);
      CommitTables(a, t, env);
      AdmitChanges(t, RefOf(a, a.tasks[a.turn].req), a.tasks[a.turn].req.fingerprint);
    case DoResume(gate, env) =>
      ResumeTables(a, t, gate, env);
      CommitTables(a, t, env);
      AdmitChanges(t, RefOf(a, a.tasks[a.turn].req), a.tasks[a.turn].req.fingerprint);
    case DoFinish(i, failed, reply, storable, fail) =>
      FinishTables(a, t, i, failed, reply, storable, fail);
      Ends(failed);
      if Take(a, t, step).1 != t {
        CompleteChanges(t, RefOf(a, a.tasks[i].req), if failed then Failed else Completed, Stored(reply));
      }
    case DoAutonomous =>
      PublishTables(a, t, 0);
      if Take(a, t, step).1 != t { SeedChanges(t, a.session, a.clock + 1); }
    case DoDurable(revision) =>
      PublishTables(a, t, revision);
      if Take(a, t, step).1 != t { SeedChanges(t, a.session, revision); }
    case _ =>
  }

  lemma Ends(failed: bool)
    ensures (if failed then Failed else Completed).Terminal()
  {
  }

  // One step, by its kind; and the receipt it may settle.
  lemma TakeIs(a: Arbiter, t: Tables, step: Step)
    requires CanTake(a, step)
    ensures match step
      case DoSubmit(req, canonical, fail) => Take(a, t, step) == (Submit(a, req, canonical, fail).0, t)
      case DoBegin(env) => CanBegin(a) && a.turn < |a.tasks| && Take(a, t, step) == Begin(a, t, env)
      case DoResume(gate, env) => CanResume(a) && a.turn < |a.tasks| && Take(a, t, step) == Resume(a, t, gate, env)
      case DoConsume(i) => CanConsume(a, i) && Take(a, t, step) == (Consume(a, i), t)
      case DoLaunch(i) => CanLaunch(a, i) && Take(a, t, step) == (Launch(a, i), t)
      case DoFinish(i, failed, reply, storable, fail) =>
        CanFinish(a, i) && i < |a.tasks| && Take(a, t, step) == Finish(a, t, i, failed, reply, storable, fail)
      case DoClose(i) => CanClose(a, i) && Take(a, t, step) == (Close(a, i), t)
      case DoAutonomous => Take(a, t, step) == PublishAutonomous(a, t)
      case DoDurable(revision) => Take(a, t, step) == PublishDurable(a, t, revision)
    ensures Touched(a, step) == if step.DoFinish? then Some(RefOf(a, a.tasks[step.task].req)) else None
  {
  }

  // ---- submissions -----------------------------------------------------------------------------

  /** Only the phase of submission `k` has changed, to `q`. */
  predicate Moves(a: Arbiter, b: Arbiter, k: nat, q: Phase) {
    && k < |a.tasks|
    && b.session == a.session && b.domain == a.domain
    && b.tasks == a.tasks[k := a.tasks[k].(phase := q)]
  }

  lemma MoveEffect(a: Arbiter, t: Tables, step: Step, b: Arbiter, u: Tables, q: Phase)
    requires CanTake(a, step) && Moves(a, b, Focus(a, step), q) && b.clock <= Revision(u, a.session)
    requires var k := Focus(a, step);
             PhaseEffect(a.tasks[k].req, RefOf(a, a.tasks[k].req), a.tasks[k].phase, q, t, u, step.DoFinish?)
    ensures Effect(a, t, step, b, u)
  {
  }

  lemma RefuseMoves(a: Arbiter, reply: Reply)
    requires a.turn < |a.tasks|
    ensures Moves(a, Refuse(a, reply), a.turn, Refused(reply)) && Refuse(a, reply).clock == a.clock
  {
  }

  lemma AnswerMoves(a: Arbiter, t: Tables, lookup: Lookup, fail: Reply)
    requires a.turn < |a.tasks| && !lookup.Miss?
    ensures var b := AnswerDurably(a, t, lookup, fail);
            a.turn < |b.tasks| && Moves(a, b, a.turn, b.tasks[a.turn].phase) && b.tasks[a.turn].phase.Refused?
            && b.clock == Max(a.clock, Revision(t, a.session))
  {
  }

  lemma CommitMoves(a: Arbiter, t: Tables, env: Surroundings)
    requires a.turn < |a.tasks| && a.clock <= Revision(t, a.session)
    ensures var (b, u) := Commit(a, t, env);
            var q, ref := b.tasks[a.turn].phase, RefOf(a, a.tasks[a.turn].req);
            && Moves(a, b, a.turn, q) && b.clock <= Revision(u, a.session)
            && (q.Refused? || (q.Accepted? && ref !in t.receipts && ref in u.receipts
                               && u.receipts[ref] == Receipt(a.tasks[a.turn].req.fingerprint, Admitted, q.revision, None)))
  {
  }

  lemma CommitEffect(a: Arbiter, t: Tables, env: Surroundings, step: Step)
    requires a.clock <= Revision(t, a.session) && CanTake(a, step) && (step.DoBegin? || step.DoResume?)
    requires a.turn < |a.tasks| && (a.tasks[a.turn].phase.Queued? || a.tasks[a.turn].phase.Checking?)
    ensures Effect(a, t, step, Commit(a, t, env).0, Commit(a, t, env).1)
  {
    hide *;
    CommitMoves(a, t, env);
    var (b, u) := Commit(a, t, env);
    UnansweredEffect(a, t, step, u, b.tasks[a.turn].phase);
    MoveEffect(a, t, step, b, u, b.tasks[a.turn].phase);
  }

  // A submission before its admission may be refused, checked, or accepted with a new receipt.
  lemma UnansweredEffect(a: Arbiter, t: Tables, step: Step, u: Tables, q: Phase)
    requires CanTake(a, step) && (step.DoBegin? || step.DoResume?) && a.turn < |a.tasks|
    requires a.tasks[a.turn].phase.Queued? || a.tasks[a.turn].phase.Checking?
    requires var ref := RefOf(a, a.tasks[a.turn].req);
             q.Refused? || q.Checking?
             || (q.Accepted? && ref !in t.receipts && ref in u.receipts
                 && u.receipts[ref] == Receipt(a.tasks[a.turn].req.fingerprint, Admitted, q.revision, None))
    ensures Focus(a, step) == a.turn
    ensures PhaseEffect(a.tasks[a.turn].req, RefOf(a, a.tasks[a.turn].req), a.tasks[a.turn].phase, q, t, u, step.DoFinish?)
  {
  }

  lemma CheckMoves(a: Arbiter)
    requires a.turn < |a.tasks|
    ensures Moves(a, SetPhase(a, a.turn, Checking), a.turn, Checking) && SetPhase(a, a.turn, Checking).clock == a.clock
  {
  }

  lemma BeginIs(a: Arbiter, t: Tables, env: Surroundings)
    requires CanBegin(a)
    ensures a.turn < |a.tasks| && a.tasks[a.turn].phase.Queued? && CanTake(a, DoBegin(env))
    ensures var req := a.tasks[a.turn].req;
            var lookup := LookupMutation(t, RefOf(a, req), req.fingerprint);
            || Begin(a, t, env) == Commit(a, t, env)
            || Begin(a, t, env) == (Refuse(a, env.fail), t)
            || Begin(a, t, env) == (Refuse(a, Conflict(a.clock)), t)
            || Begin(a, t, env) == (SetPhase(a, a.turn, Checking), t)
            || (!lookup.Miss? && Begin(a, t, env) == (AnswerDurably(a, t, lookup, env.fail), t))
  {
  }

  // Without a commit, a submission is refused or checked and the ledger is left alone.
  lemma BeginMoves(a: Arbiter, t: Tables, env: Surroundings)
    requires CanBegin(a) && a.clock <= Revision(t, a.session) && Begin(a, t, env) != Commit(a, t, env)
    ensures var (b, u) := Begin(a, t, env);
            && u == t && a.turn < |a.tasks| && a.turn < |b.tasks|
            && Moves(a, b, a.turn, b.tasks[a.turn].phase) && b.clock <= Revision(t, a.session)
            && (b.tasks[a.turn].phase.Refused? || b.tasks[a.turn].phase.Checking?)
  {
    hide *;
    BeginIs(a, t, env);
    var b := Begin(a, t, env).0;
    var req := a.tasks[a.turn].req;
    var lookup := LookupMutation(t, RefOf(a, req), req.fingerprint);
    RefuseMoves(a, env.fail);
    RefuseMoves(a, Conflict(a.clock));
    CheckMoves(a);
    if !lookup.Miss? { AnswerMoves(a, t, lookup, env.fail); }
    AnswerClock(a, t);
    if b == Refuse(a, env.fail) { MovedTo(a, b, a.turn, Refused(env.fail)); }
    else if b == Refuse(a, Conflict(a.clock)) { MovedTo(a, b, a.turn, Refused(Conflict(a.clock))); }
    else if b == SetPhase(a, a.turn, Checking) { MovedTo(a, b, a.turn, Checking); }
    else { MovedTo(a, b, a.turn, b.tasks[a.turn].phase); }
  }

  lemma AnswerClock(a: Arbiter, t: Tables)
    requires a.clock <= Revision(t, a.session)
    ensures Max(a.clock, Revision(t, a.session)) == Revision(t, a.session)
  {
  }

  lemma MovedTo(a: Arbiter, b: Arbiter, k: nat, q: Phase)
    requires Moves(a, b, k, q)
    ensures k < |b.tasks| && b.tasks[k].phase == q
  {
  }

  lemma BeginEffect(a: Arbiter, t: Tables, env: Surroundings)
    requires a.clock <= Revision(t, a.session) && CanBegin(a)
    ensures Effect(a, t, DoBegin(env), Begin(a, t, env).0, Begin(a, t, env).1)
  {
    hide *;
    BeginIs(a, t, env);
    if Begin(a, t, env) == Commit(a, t, env) {
      CommitEffect(a, t, env, DoBegin(env));
    } else {
      BeginMoves(a, t, env);
      var b := Begin(a, t, env).0;
      UnansweredEffect(a, t, DoBegin(env), t, b.tasks[a.turn].phase);
      MoveEffect(a, t, DoBegin(env), b, t, b.tasks[a.turn].phase);
    }
  }

  lemma ResumeIs(a: Arbiter, t: Tables, gate: Gate, env: Surroundings)
    requires CanResume(a)
    ensures a.turn < |a.tasks| && a.tasks[a.turn].phase.Checking? && CanTake(a, DoResume(gate, env))
    ensures Resume(a, t, gate, env) == if gate.Proceed? then Commit(a, t, env) else (Refuse(a, gate.reply), t)
  {
  }

  lemma ResumeEffect(a: Arbiter, t: Tables, gate: Gate, env: Surroundings)
    requires a.clock <= Revision(t, a.session) && CanResume(a)
    ensures Effect(a, t, DoResume(gate, env), Resume(a, t, gate, env).0, Resume(a, t, gate, env).1)
  {
    hide *;
    ResumeIs(a, t, gate, env);
    if gate.Proceed? {
      CommitEffect(a, t, env, DoResume(gate, env));
    } else {
      RefuseMoves(a, gate.reply);
      UnansweredEffect(a, t, DoResume(gate, env), t, Refused(gate.reply));
      MoveEffect(a, t, DoResume(gate, env), Refuse(a, gate.reply), t, Refused(gate.reply));
    }
  }

  lemma ConsumeEffect(a: Arbiter, t: Tables, i: nat)
    requires a.clock <= Revision(t, a.session) && CanConsume(a, i)
    ensures Effect(a, t, DoConsume(i), Consume(a, i), t)
  {
    MoveEffect(a, t, DoConsume(i), Consume(a, i), t, Consume(a, i).tasks[i].phase);
  }

  lemma LaunchEffect(a: Arbiter, t: Tables, i: nat)
    requires a.clock <= Revision(t, a.session) && CanLaunch(a, i)
    ensures Effect(a, t, DoLaunch(i), Launch(a, i), t)
  {
    MoveEffect(a, t, DoLaunch(i), Launch(a, i), t, Executing(a.tasks[i].phase.revision));
  }

  lemma CloseMoves(a: Arbiter, i: nat)
    requires CanClose(a, i)
    ensures i < |a.tasks| && a.tasks[i].phase.Settled? && Focus(a, DoClose(i)) == i && CanTake(a, DoClose(i))
    ensures Moves(a, Close(a, i), i, Closed(a.tasks[i].phase.reply, a.tasks[i].phase.admitted))
    ensures Close(a, i).clock == a.clock
  {
  }

  lemma CloseEffect(a: Arbiter, t: Tables, i: nat)
    requires a.clock <= Revision(t, a.session) && CanClose(a, i)
    ensures Effect(a, t, DoClose(i), Close(a, i), t)
  {
    hide *;
    CloseMoves(a, i);
    ClosedEffect(a.tasks[i].req, RefOf(a, a.tasks[i].req), a.tasks[i].phase, t);
    MoveEffect(a, t, DoClose(i), Close(a, i), t, Closed(a.tasks[i].phase.reply, a.tasks[i].phase.admitted));
  }

  lemma ClosedEffect(req: Request, ref: Ref, p: Phase, t: Tables)
    requires p.Settled?
    ensures PhaseEffect(req, ref, p, Closed(p.reply, p.admitted), t, t, false)
  {
  }

  lemma FinishMoves(a: Arbiter, t: Tables, i: nat, failed: bool, reply: Reply, storable: bool, fail: Reply)
    requires CanFinish(a, i) && a.clock <= Revision(t, a.session)
    ensures var (b, u) := Finish(a, t, i, failed, reply, storable, fail);
            var p, q := a.tasks[i].phase, b.tasks[i].phase;
            && Moves(a, b, i, q) && b.clock <= Revision(u, a.session)
            && PhaseEffect(a.tasks[i].req, RefOf(a, a.tasks[i].req), p, q, t, u, true)
  {
  }

  lemma FinishEffect(a: Arbiter, t: Tables, i: nat, failed: bool, reply: Reply, storable: bool, fail: Reply)
    requires a.clock <= Revision(t, a.session) && CanFinish(a, i)
    ensures var (b, u) := Finish(a, t, i, failed, reply, storable, fail);
            Effect(a, t, DoFinish(i, failed, reply, storable, fail), b, u)
  {
    FinishMoves(a, t, i, failed, reply, storable, fail);
    var (b, u) := Finish(a, t, i, failed, reply, storable, fail);
    MoveEffect(a, t, DoFinish(i, failed, reply, storable, fail), b, u, b.tasks[i].phase);
  }

  lemma SubmitEffect(a: Arbiter, t: Tables, req: Request, canonical: bool, fail: Reply)
    requires a.clock <= Revision(t, a.session)
    ensures Effect(a, t, DoSubmit(req, canonical, fail), Submit(a, req, canonical, fail).0, t)
  {
  }

  lemma PublishEffect(a: Arbiter, t: Tables, revision: int)
    requires a.clock <= Revision(t, a.session)
    ensures Effect(a, t, DoAutonomous, PublishAutonomous(a, t).0, PublishAutonomous(a, t).1)
    ensures Effect(a, t, DoDurable(revision), PublishDurable(a, t, revision).0, PublishDurable(a, t, revision).1)
  {
  }

  lemma StepEffect(a: Arbiter, t: Tables, step: Step)
    requires a.clock <= Revision(t, a.session) && CanTake(a, step)
    ensures Effect(a, t, step, Take(a, t, step).0, Take(a, t, step).1)
  {
    hide *;
    TakeIs(a, t, step);
    match step
    case DoSubmit(req, canonical, fail) => SubmitEffect(a, t, req, canonical, fail);
    case DoBegin(env) => BeginEffect(a, t, env);
    case DoResume(gate, env) => ResumeEffect(a, t, gate, env);
    case DoConsume(i) => ConsumeEffect(a, t, i);
    case DoLaunch(i) => LaunchEffect(a, t, i);
    case DoFinish(i, failed, reply, storable, fail) => FinishEffect(a, t, i, failed, reply, storable, fail);
    case DoClose(i) => CloseEffect(a, t, i);
    case DoAutonomous => PublishEffect(a, t, 0);
    case DoDurable(revision) => PublishEffect(a, t, revision);
  }

  lemma StepKeepsLanes(a: Arbiter, t: Tables, step: Step)
    requires Lanes(a) && a.clock <= Revision(t, a.session) && CanTake(a, step)
    ensures Lanes(Take(a, t, step).0)
  {
    hide *;
    TakeIs(a, t, step);
    PublishClock(a, t, step);
    match step
    case DoSubmit(req, canonical, fail) => SubmitKeeps(a, req, canonical, fail);
    case DoBegin(env) => BeginKeepsLanes(a, t, env);
    case DoResume(gate, env) => ResumeKeepsLanes(a, t, gate, env);
    case DoConsume(i) => ConsumeKeepsLanes(a, i);
    case DoLaunch(i) => LaunchKeepsLanes(a, i);
    case DoFinish(i, failed, reply, storable, fail) => FinishKeepsLanes(a, t, i, failed, reply, storable, fail);
    case DoClose(i) => CloseKeepsLanes(a, i);
    case DoAutonomous => RaiseClockKeeps(a, Take(a, t, step).0.clock);
    case DoDurable(_) => RaiseClockKeeps(a, Take(a, t, step).0.clock);
  }

  lemma PublishClock(a: Arbiter, t: Tables, step: Step)
    requires a.clock <= Revision(t, a.session) && CanTake(a, step)
    ensures step.DoAutonomous? || step.DoDurable? ==>
              a.clock <= Take(a, t, step).0.clock && Take(a, t, step).0 == a.(clock := Take(a, t, step).0.clock)
  {
  }

  // ---- backing survives ------------------------------------------------------------------------

  ghost predicate OwnerGrows(owner: map<Ref, Owner>, more: map<Ref, Owner>) {
    forall ref :: ref in owner ==> ref in more && more[ref] == owner[ref]
  }

  lemma BystanderBacked(a: Arbiter, t: Tables, owner: map<Ref, Owner>, id: nat,
                        u: Tables, more: map<Ref, Owner>, touched: Option<Ref>)
    requires Backed(a, t, owner, id) && Changes(t, u, touched) && OwnerGrows(owner, more)
    requires touched.Some? && touched.value in owner ==> owner[touched.value].arbiter != id
    ensures Backed(a, u, more, id)
  {
    forall i | 0 <= i < |a.tasks| ensures TaskBacked(a, u, more, id, i) {
      assert TaskBacked(a, t, owner, id, i);
    }
  }

  lemma ActorBacked(a: Arbiter, t: Tables, owner: map<Ref, Owner>, id: nat, step: Step,
                    b: Arbiter, u: Tables, more: map<Ref, Owner>)
    requires Backed(a, t, owner, id) && CanTake(a, step) && Effect(a, t, step, b, u)
    requires Changes(t, u, Touched(a, step))
    requires forall ref :: ref in owner ==> ref in t.receipts
    requires more == if Admits(a, b, Focus(a, step))
                     then owner[RefOf(a, a.tasks[Focus(a, step)].req) := Owner(id, Focus(a, step))] else owner
    ensures Backed(b, u, more, id) && OwnerGrows(owner, more)
    ensures forall ref :: ref in more ==> ref in u.receipts
  {
    var k := Focus(a, step);
    forall i | 0 <= i < |b.tasks| ensures TaskBacked(b, u, more, id, i) {
      if i < |a.tasks| {
        assert TaskBacked(a, t, owner, id, i);
        if step.DoFinish? { assert TaskBacked(a, t, owner, id, k); }
      }
    }
  }

  // ---- the log survives ---------------------------------------------------------------------------

  lemma EntrySurvives(w: World, x: World, id: nat, step: Step, e: Execution)
    requires id in w.arbiters && CanTake(w.arbiters[id], step) && EntryBacked(w, e)
    requires x.issued == w.issued && id in x.arbiters && x.arbiters == w.arbiters[id := x.arbiters[id]]
    requires Effect(w.arbiters[id], w.tables, step, x.arbiters[id], x.tables)
    requires Grows(w.tables, x.tables) && OwnerGrows(w.owner, x.owner)
    ensures EntryBacked(x, e)
  {
  }

  lemma NewEntry(w: World, id: nat, step: Step, b: Arbiter, u: Tables)
    requires id in w.arbiters && CanTake(w.arbiters[id], step) && Effect(w.arbiters[id], w.tables, step, b, u)
    requires Starts(w.arbiters[id], b, Focus(w.arbiters[id], step))
    requires NormalsInOrder(w.arbiters[id]) && Backed(w.arbiters[id], w.tables, w.owner, id)
    requires LogOrdered(w.log) && forall e :: e in w.log ==> EntryBacked(w, e)
    ensures LogOrdered(w.log + [ExecutionOf(id, Focus(w.arbiters[id], step), b)])
  {
    var a, k := w.arbiters[id], Focus(w.arbiters[id], step);
    var x := ExecutionOf(id, k, b);
    assert TaskBacked(a, w.tables, w.owner, id, k);
    assert w.owner[x.ref] == Owner(id, k);
    forall j | 0 <= j < |w.log| ensures w.log[j].ref != x.ref {
      assert w.log[j] in w.log && EntryBacked(w, w.log[j]);
    }
    forall j | 0 <= j < |w.log| && w.log[j].arbiter == id && w.log[j].normal && x.normal
      ensures w.log[j].task < k
    {
      var e := w.log[j];
      assert e in w.log && EntryBacked(w, e);
      assert e.task != k;
      if k < e.task { assert BothNormal(a.tasks, k, e.task); }
    }
  }

  // ---- every action keeps the invariant ----------------------------------------------------------------

  ghost predicate ArbitersOk(w: World) {
    forall id :: id in w.arbiters ==>
      id < w.issued && Lanes(w.arbiters[id]) && Backed(w.arbiters[id], w.tables, w.owner, id)
  }

  lemma RunKeepsActor(w: World, id: nat, step: Step)
    requires Inv(w) && Enabled(w, Run(id, step))
    ensures var x := Next(w, Run(id, step));
            && Valid(x.tables) && Changes(w.tables, x.tables, Touched(w.arbiters[id], step))
            && Effect(w.arbiters[id], w.tables, step, x.arbiters[id], x.tables)
            && Lanes(x.arbiters[id])
            && Backed(x.arbiters[id], x.tables, x.owner, id)
            && OwnerGrows(w.owner, x.owner)
            && (forall ref :: ref in x.owner ==> ref in x.tables.receipts)
  {
    hide *;
    var x := Next(w, Run(id, step));
    InvParts(w);
    OkParts(w);
    RunIs(w, id, step);
    var a := w.arbiters[id];
    BackedClock(a, w.tables, w.owner, id);
    StepTables(a, w.tables, step);
    StepEffect(a, w.tables, step);
    StepKeepsLanes(a, w.tables, step);
    ActorBacked(a, w.tables, w.owner, id, step, x.arbiters[id], x.tables, x.owner);
  }

  lemma InvParts(w: World)
    requires Inv(w)
    ensures Valid(w.tables) && ArbitersOk(w) && LogOrdered(w.log)
    ensures forall ref :: ref in w.owner ==> ref in w.tables.receipts
    ensures forall e :: e in w.log ==> EntryBacked(w, e)
  {
  }

  lemma BackedClock(a: Arbiter, t: Tables, owner: map<Ref, Owner>, id: nat)
    requires Backed(a, t, owner, id)
    ensures a.clock <= Revision(t, a.session)
  {
  }

  lemma RunIs(w: World, id: nat, step: Step)
    requires Enabled(w, Run(id, step))
    ensures id in w.arbiters && CanTake(w.arbiters[id], step)
    ensures var a, x := w.arbiters[id], Next(w, Run(id, step));
            var (b, u), k := Take(a, w.tables, step), Focus(a, step);
            && x.tables == u && id in x.arbiters && x.arbiters[id] == b && x.arbiters == w.arbiters[id := b]
            && x.issued == w.issued
            && x.owner == (if Admits(a, b, k) then w.owner[RefOf(a, a.tasks[k].req) := Owner(id, k)] else w.owner)
            && x.log == if Starts(a, b, k) then w.log + [ExecutionOf(id, k, b)] else w.log
  {
  }

  lemma RunKeepsBystanders(w: World, x: World, id: nat, step: Step)
    requires ArbitersOk(w) && id in w.arbiters && CanTake(w.arbiters[id], step)
    requires Changes(w.tables, x.tables, Touched(w.arbiters[id], step)) && OwnerGrows(w.owner, x.owner)
    requires x.issued == w.issued && id in x.arbiters && x.arbiters == w.arbiters[id := x.arbiters[id]]
    requires Lanes(x.arbiters[id]) && Backed(x.arbiters[id], x.tables, x.owner, id)
    ensures ArbitersOk(x)
  {
    hide *;
    OkParts(w);
    TouchedIsOwn(w, id, step);
    forall m | m in x.arbiters
      ensures m < x.issued && Lanes(x.arbiters[m]) && Backed(x.arbiters[m], x.tables, x.owner, m)
    {
      if m != id {
        assert x.arbiters[m] == w.arbiters[m];
        BystanderBacked(w.arbiters[m], w.tables, w.owner, m, x.tables, x.owner, Touched(w.arbiters[id], step));
      }
    }
    PartsOk(x);
  }

  lemma OkParts(w: World)
    requires ArbitersOk(w)
    ensures forall m :: m in w.arbiters ==>
              m < w.issued && Lanes(w.arbiters[m]) && Backed(w.arbiters[m], w.tables, w.owner, m)
  {
  }

  lemma PartsOk(w: World)
    requires forall m :: m in w.arbiters ==>
               m < w.issued && Lanes(w.arbiters[m]) && Backed(w.arbiters[m], w.tables, w.owner, m)
    ensures ArbitersOk(w)
  {
  }

  // The receipt a step may settle belongs to the arbiter that takes the step.
  lemma TouchedIsOwn(w: World, id: nat, step: Step)
    requires ArbitersOk(w) && id in w.arbiters && CanTake(w.arbiters[id], step)
    ensures var touched := Touched(w.arbiters[id], step);
            touched.Some? && touched.value in w.owner ==> w.owner[touched.value].arbiter == id
  {
    if step.DoFinish? { assert TaskBacked(w.arbiters[id], w.tables, w.owner, id, step.task); }
  }

  lemma RunKeepsLog(w: World, x: World, id: nat, step: Step)
    requires id in w.arbiters && CanTake(w.arbiters[id], step)
    requires x.issued == w.issued && id in x.arbiters && x.arbiters == w.arbiters[id := x.arbiters[id]]
    requires Effect(w.arbiters[id], w.tables, step, x.arbiters[id], x.tables)
    requires Grows(w.tables, x.tables) && OwnerGrows(w.owner, x.owner) && id < w.issued
    requires NormalsInOrder(w.arbiters[id]) && Backed(w.arbiters[id], w.tables, w.owner, id)
    requires Backed(x.arbiters[id], x.tables, x.owner, id)
    requires LogOrdered(w.log) && forall e :: e in w.log ==> EntryBacked(w, e)
    requires x.log == if Starts(w.arbiters[id], x.arbiters[id], Focus(w.arbiters[id], step))
                      then w.log + [ExecutionOf(id, Focus(w.arbiters[id], step), x.arbiters[id])] else w.log
    ensures LogOrdered(x.log) && forall e :: e in x.log ==> EntryBacked(x, e)
  {
    var a, b, k := w.arbiters[id], x.arbiters[id], Focus(w.arbiters[id], step);
    forall e | e in w.log ensures EntryBacked(x, e) { EntrySurvives(w, x, id, step, e); }
    if Starts(a, b, k) {
      NewEntry(w, id, step, b, x.tables);
      assert TaskBacked(b, x.tables, x.owner, id, k);
      assert EntryBacked(x, ExecutionOf(id, k, b));
    }
  }

  lemma RunKeepsInv(w: World, id: nat, step: Step)
    requires Inv(w) && Enabled(w, Run(id, step))
    ensures Inv(Next(w, Run(id, step))) && Grows(w.tables, Next(w, Run(id, step)).tables)
  {
    RunKeepsActor(w, id, step);
    RunKeepsLog(w, Next(w, Run(id, step)), id, step);
    RunKeepsBystanders(w, Next(w, Run(id, step)), id, step);
  }

  lemma DropKeepsInv(w: World, id: nat)
    requires Inv(w)
    ensures Inv(Next(w, DropArbiter(id)))
  {
    var x := Next(w, DropArbiter(id));
    forall e | e in x.log ensures EntryBacked(x, e) { assert EntryBacked(w, e); }
  }

  lemma OpenKeepsInv(w: World, session: string, domain: string, clock: nat)
    requires Inv(w) && IsSafeInteger(clock)
    ensures Inv(Next(w, OpenArbiter(session, domain, clock)))
    ensures Grows(w.tables, Next(w, OpenArbiter(session, domain, clock)).tables)
  {
    hide *;
    InvParts(w);
    var u := SeedSessionRevision(w.tables, session, clock);
    SeedChanges(w.tables, session, clock);
    TablesKeepInv(w, w.(tables := u));
    ChangesGrow(w.tables, u, None);
    OpenIs(w, session, domain, clock);
    OpenHasLanes(w.tables, session, domain, clock);
    JoinKeepsInv(w.(tables := u), Open(w.tables, session, domain, clock).0);
  }

  lemma ChangesGrow(t: Tables, u: Tables, touched: Option<Ref>)
    requires Changes(t, u, touched)
    ensures Grows(t, u)
  {
  }

  lemma OpenIs(w: World, session: string, domain: string, clock: nat)
    requires IsSafeInteger(clock)
    ensures Enabled(w, OpenArbiter(session, domain, clock))
    ensures var (a, u) := Open(w.tables, session, domain, clock);
            && u == SeedSessionRevision(w.tables, session, clock)
            && Next(w, OpenArbiter(session, domain, clock)) == w.(tables := u, arbiters := w.arbiters[w.issued := a], issued := w.issued + 1)
            && a.tasks == [] && a.session in u.sessions && a.clock == Revision(u, a.session)
  {
  }

  // A new arbiter without submissions joins the world.
  lemma JoinKeepsInv(w: World, a: Arbiter)
    requires Inv(w) && Lanes(a) && a.tasks == [] && a.session in w.tables.sessions && a.clock <= Revision(w.tables, a.session)
    ensures Inv(w.(arbiters := w.arbiters[w.issued := a], issued := w.issued + 1))
  {
    var x := w.(arbiters := w.arbiters[w.issued := a], issued := w.issued + 1);
    forall e | e in w.log ensures EntryBacked(x, e) { assert EntryBacked(w, e); }
  }

  lemma TablesKeepInv(w: World, x: World)
    requires Inv(w) && x == w.(tables := x.tables) && Valid(x.tables) && Changes(w.tables, x.tables, None)
    ensures Inv(x)
  {
    forall m | m in x.arbiters ensures m < x.issued && Lanes(x.arbiters[m]) && Backed(x.arbiters[m], x.tables, x.owner, m) {
      BystanderBacked(w.arbiters[m], w.tables, w.owner, m, x.tables, x.owner, None);
    }
    forall e | e in x.log ensures EntryBacked(x, e) { assert EntryBacked(w, e); }
  }

  lemma RecoverKeepsInv(w: World)
    requires Inv(w)
    ensures Inv(Next(w, Recover)) && Grows(w.tables, Next(w, Recover).tables)
  {
    RecoverChanges(w.tables);
    TablesKeepInv(w, Next(w, Recover));
  }

  lemma RecoverChanges(t: Tables)
    requires Valid(t)
    ensures Valid(RecoverInDoubt(t)) && Changes(t, RecoverInDoubt(t), None)
  {
    RecoverKeeps(t);
    RecoverOnly(t);
  }

  // Recovery and reopening make nothing terminal.
  lemma RecoverOnly(t: Tables)
    ensures forall r :: r in t.receipts ==>
              r in RecoverInDoubt(t).receipts
              && (RecoverInDoubt(t).receipts[r].status.Terminal() ==> RecoverInDoubt(t).receipts[r] == t.receipts[r])
  {
  }

  lemma ReopenOnly(t: Tables, ref: Ref)
    ensures forall r :: r in t.receipts ==>
              r in ReopenMutation(t, ref).receipts
              && (ReopenMutation(t, ref).receipts[r].status.Terminal() ==> ReopenMutation(t, ref).receipts[r] == t.receipts[r])
  {
  }

  lemma ReopenKeepsInv(w: World, ref: Ref)
    requires Inv(w)
    ensures Inv(Next(w, Reopen(ref))) && Grows(w.tables, Next(w, Reopen(ref)).tables)
  {
    ReopenChanges(w.tables, ref);
    TablesKeepInv(w, Next(w, Reopen(ref)));
  }

  lemma ReopenChanges(t: Tables, ref: Ref)
    requires Valid(t)
    ensures Valid(ReopenMutation(t, ref)) && Changes(t, ReopenMutation(t, ref), None)
  {
    ReopenKeeps(t, ref);
    ReopenOnly(t, ref);
  }

  lemma NextKeepsInv(w: World, act: Action)
    requires Inv(w) && Enabled(w, act)
    ensures Inv(Next(w, act)) && Grows(w.tables, Next(w, act).tables)
  {
    match act
    case OpenArbiter(session, domain, clock) => OpenKeepsInv(w, session, domain, clock);
    case DropArbiter(id) => DropKeepsInv(w, id);
    case Recover => RecoverKeepsInv(w);
    case Reopen(ref) => ReopenKeepsInv(w, ref);
    case Run(id, step) => RunKeepsInv(w, id, step);
  }

  lemma {:induction false} RunsKeepInv(w: World, acts: seq<Action>)
    requires Inv(w) && Legal(w, acts)
    ensures Inv(After(w, acts)) && Grows(w.tables, After(w, acts).tables)
    decreases |acts|
  {
    if acts != [] {
      NextKeepsInv(w, acts[0]);
      RunsKeepInv(Next(w, acts[0]), acts[1..]);
      GrowsTrans(w.tables, Next(w, acts[0]).tables, After(w, acts).tables);
    }
  }
}

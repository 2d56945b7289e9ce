/**
 What each call of the arbiter answers, exactly: who is admitted, what a refused call is told, and what an
 execution leaves behind, over every reachable state.
 */
module ArbiterAnswers {
  import opened Base
  import opened ReceiptTables
  import opened ArbiterModel
  import opened ArbiterLanes
  import opened ArbiterWorld
  import opened ArbiterTheorems
  import opened ArbiterReplay

  // ---- admission -------------------------------------------------------------------------

  /** Some admitted, unfinished turn a cancel can bind to began no later than the revision it was formed at. */
  ghost predicate ReachesOldestTurn(a: Arbiter, expectedRevision: int) {
    exists i: nat :: OldestBinding(a, i) && a.tasks[i].phase.revision - 1 <= expectedRevision
  }

  /** The four reasons for which a request is in time, given the durable revision. */
  ghost predicate InTime(a: Arbiter, durable: nat, req: Request, identity: Verdict) {
    || req.expectedRevision == durable
    || req.acceptLatest
    || (req.checksIdentity && identity == Holds)
    || (req.lane == Cancel && 0 <= req.expectedRevision < durable && ReachesOldestTurn(a, req.expectedRevision))
  }

  /** The lookup throws, or the identity check does; that one is only asked when revision and rebase flag leave it open. */
  predicate LookingThrows(durable: nat, req: Request, env: Surroundings) {
    || env.lookupThrows
    || (req.expectedRevision != durable && !req.acceptLatest && req.checksIdentity && env.identity == Throws)
  }

  /** What a key with a receipt is told. */
  function OnRecord(durable: nat, r: Receipt, fingerprint: string, fail: Reply): Reply {
    if r.fingerprint != fingerprint then InvalidReuse(durable)
    else if (r.status == Completed || r.status == Failed) && r.result.Some? then r.result.value
    else fail
  }

  lemma OldestIsCounted(a: Arbiter, req: Request)
    requires Counted(a) && IsSafeInteger(a.clock)
    ensures StalePreemptiveCancel(a, req) <==>
              req.lane == Cancel && 0 <= req.expectedRevision < a.clock && ReachesOldestTurn(a, req.expectedRevision)
  {
    if StalePreemptiveCancel(a, req) {
      var g :| g in a.generations && g <= req.expectedRevision + 1 && forall h :: h in a.generations ==> g <= h;
      var i := LeastGenerationIsOldest(a, g);
    }
    if ReachesOldestTurn(a, req.expectedRevision) {
      var i: nat :| OldestBinding(a, i) && a.tasks[i].phase.revision - 1 <= req.expectedRevision;
      OldestIsLeastGeneration(a, i);
    }
  }

  lemma FreshIsInTime(a: Arbiter, req: Request, env: Surroundings)
    requires Counted(a) && IsSafeInteger(a.clock)
    ensures Fresh(a, req, env) <==> InTime(a, a.clock, req, env.identity)
  {
    OldestIsCounted(a, req);
  }

  lemma RecordAnswers(a: Arbiter, t: Tables, fail: Reply)
    requires a.turn < |a.tasks| && a.clock == Revision(t, a.session)
    requires RefOf(a, a.tasks[a.turn].req) in t.receipts
    ensures var req := a.tasks[a.turn].req;
            var b := AnswerDurably(a, t, LookupMutation(t, RefOf(a, req), req.fingerprint), fail);
            b.tasks[a.turn].phase == Refused(OnRecord(a.clock, t.receipts[RefOf(a, req)], req.fingerprint, fail))
  {
  }

  lemma CommitAnswers(a: Arbiter, t: Tables, env: Surroundings)
    requires a.turn < |a.tasks| && a.clock == Revision(t, a.session) && RefOf(a, a.tasks[a.turn].req) !in t.receipts
    ensures var (b, u), durable := Commit(a, t, env), Revision(t, a.session);
            && |b.tasks| == |a.tasks|
            && (if !env.admitThrows && IsSafeInteger(durable + 1)
                then b.tasks[a.turn].phase == Accepted(durable + 1) && Revision(u, a.session) == durable + 1
                else b.tasks[a.turn].phase == Refused(env.fail) && u == t)
  {
  }

  /** The whole answer of the stretch before the precondition, at one arbiter in step with its ledger. */
  ghost predicate AdmissionAnswer(a: Arbiter, t: Tables, env: Surroundings, b: Arbiter, u: Tables)
    requires a.turn < |a.tasks| && a.turn < |b.tasks|
  {
    var durable, req, q := Revision(t, a.session), a.tasks[a.turn].req, b.tasks[a.turn].phase;
    var ref := RefOf(a, req);
    if ref in t.receipts && !env.lookupThrows
    then q == Refused(OnRecord(durable, t.receipts[ref], req.fingerprint, env.fail)) && u == t
    else if LookingThrows(durable, req, env) then q == Refused(env.fail) && u == t
    else if !InTime(a, durable, req, env.identity) then q == Refused(Conflict(durable)) && u == t
    else if req.checksPrecondition then q == Checking && u == t
    else if !env.admitThrows && IsSafeInteger(durable + 1)
    then q == Accepted(durable + 1) && Revision(u, a.session) == durable + 1
    else q == Refused(env.fail) && u == t
  }

  lemma BeginAnswers(a: Arbiter, t: Tables, env: Surroundings)
    requires CanBegin(a) && Counted(a) && a.clock == Revision(t, a.session) && IsSafeInteger(a.clock)
    ensures |Begin(a, t, env).0.tasks| == |a.tasks| && AdmissionAnswer(a, t, env, Begin(a, t, env).0, Begin(a, t, env).1)
  {
    hide Fresh, Commit, AnswerDurably, OnRecord, InTime;
    var req := a.tasks[a.turn].req;
    FreshIsInTime(a, req, env);
    if RefOf(a, req) in t.receipts {
      RecordAnswers(a, t, env.fail);
      AnswerMoves(a, t, LookupMutation(t, RefOf(a, req), req.fingerprint), env.fail);
    } else {
      CommitAnswers(a, t, env);
    }
  }

  /** A world some run with one arbiter per session leads to. */
  ghost predicate ReachedBy(w: World, t: Tables, acts: seq<Action>) {
    Valid(t) && Legal(Boot(t), acts) && ExclusiveRun(Boot(t), acts) && w == After(Boot(t), acts)
  }

  lemma Reached(w: World, t: Tables, acts: seq<Action>, id: nat)
    requires ReachedBy(w, t, acts) && id in w.arbiters
    ensures Inv(w) && Lanes(w.arbiters[id]) && Counted(w.arbiters[id]) && Remembered(w.arbiters[id]) && OnlyAdmittedStay(w.arbiters[id])
    ensures w.arbiters[id].clock == Revision(w.tables, w.arbiters[id].session) && IsSafeInteger(w.arbiters[id].clock)
  {
    BootInv(t);
    RunsKeepInv(Boot(t), acts);
    ClockFollowsLedger(Boot(t), acts);
    LanesParts(w.arbiters[id]);
  }

  /**
   In every reachable state, at the turn of every request: a key on record is answered from its receipt; otherwise,
   if nothing throws, the submission is accepted at the next revision (or goes on to its precondition) exactly when
   it expects the durable revision, rebases, has an identity check that holds, or is a cancel no older than the base
   of the oldest turn it can bind to; and if it is none of these it is told Conflict with the durable revision.
   */
  lemma AdmissionIsExact(w: World, t: Tables, acts: seq<Action>, id: nat, env: Surroundings)
    requires ReachedBy(w, t, acts) && id in w.arbiters && CanBegin(w.arbiters[id])
    ensures var a := w.arbiters[id];
            var durable, req, (b, u) := Revision(w.tables, a.session), a.tasks[a.turn].req, Begin(a, w.tables, env);
            var ref, q := RefOf(a, req), b.tasks[a.turn].phase;
            var passes := ref !in w.tables.receipts && !LookingThrows(durable, req, env) && InTime(a, durable, req, env.identity);
            && (q.Checking? <==> passes && req.checksPrecondition)
            && (q.Accepted? <==> passes && !req.checksPrecondition && !env.admitThrows && IsSafeInteger(durable + 1))
            && (q.Accepted? ==> q == Accepted(durable + 1) && Revision(u, a.session) == durable + 1)
            && (!q.Accepted? ==> u == w.tables)
            && (ref !in w.tables.receipts && !LookingThrows(durable, req, env) && !InTime(a, durable, req, env.identity) ==>
                  q == Refused(Conflict(durable)))
            && (ref !in w.tables.receipts && LookingThrows(durable, req, env) ==> q == Refused(env.fail))
            && (ref in w.tables.receipts && !env.lookupThrows ==>
                  q == Refused(OnRecord(durable, w.tables.receipts[ref], req.fingerprint, env.fail)))
  {
    hide *;
    Reached(w, t, acts, id);
    BeginIs(w.arbiters[id], w.tables, env);
    BeginAnswers(w.arbiters[id], w.tables, env);
    AnswerIs(w.arbiters[id], w.tables, env, Begin(w.arbiters[id], w.tables, env).0, Begin(w.arbiters[id], w.tables, env).1);
  }

  lemma AnswerIs(a: Arbiter, t: Tables, env: Surroundings, b: Arbiter, u: Tables)
    requires a.turn < |a.tasks| && a.turn < |b.tasks| && AdmissionAnswer(a, t, env, b, u)
    ensures var durable, req, q := Revision(t, a.session), a.tasks[a.turn].req, b.tasks[a.turn].phase;
            var ref := RefOf(a, req);
            var passes := ref !in t.receipts && !LookingThrows(durable, req, env) && InTime(a, durable, req, env.identity);
            && (q.Checking? <==> passes && req.checksPrecondition)
            && (q.Accepted? <==> passes && !req.checksPrecondition && !env.admitThrows && IsSafeInteger(durable + 1))
            && (q.Accepted? ==> q == Accepted(durable + 1) && Revision(u, a.session) == durable + 1)
            && (!q.Accepted? ==> u == t)
            && (ref !in t.receipts && !LookingThrows(durable, req, env) && !InTime(a, durable, req, env.identity) ==>
                  q == Refused(Conflict(durable)))
            && (ref !in t.receipts && LookingThrows(durable, req, env) ==> q == Refused(env.fail))
            && (ref in t.receipts && !env.lookupThrows ==>
                  q == Refused(OnRecord(durable, t.receipts[ref], req.fingerprint, env.fail)))
  {
    hide InTime, OnRecord;
  }

  /**
   After an awaited precondition: one that stops the mutation or throws is its answer and changes nothing durable; one
   that lets it pass admits it at the next revision of that moment, whatever it had expected before, unless the
   ledger throws or the key has a receipt by now.
   */
  lemma PreconditionDecides(w: World, t: Tables, acts: seq<Action>, id: nat, gate: Gate, env: Surroundings)
    requires ReachedBy(w, t, acts) && id in w.arbiters && CanResume(w.arbiters[id])
    ensures var a := w.arbiters[id];
            var durable, req, (b, u) := Revision(w.tables, a.session), a.tasks[a.turn].req, Resume(a, w.tables, gate, env);
            var ref, q := RefOf(a, req), b.tasks[a.turn].phase;
            && (q.Accepted? <==> gate == Proceed && ref !in w.tables.receipts && !env.admitThrows && IsSafeInteger(durable + 1))
            && (q.Accepted? ==> q == Accepted(durable + 1) && Revision(u, a.session) == durable + 1)
            && (gate != Proceed ==> q == Refused(gate.reply) && u == w.tables)
            && (gate == Proceed && !q.Accepted? ==>
                  q == Refused(if ref in w.tables.receipts && !env.admitThrows
                               then OnRecord(durable, w.tables.receipts[ref], req.fingerprint, env.fail) else env.fail))
            && (!q.Accepted? ==> u.receipts == w.tables.receipts && Revision(u, a.session) == durable)
  {
    hide *;
    Reached(w, t, acts, id);
    ResumeAnswers(w.arbiters[id], w.tables, gate, env);
  }

  lemma ResumeAnswers(a: Arbiter, t: Tables, gate: Gate, env: Surroundings)
    requires CanResume(a) && a.clock == Revision(t, a.session)
    ensures var durable, req, (b, u) := Revision(t, a.session), a.tasks[a.turn].req, Resume(a, t, gate, env);
            var ref, q := RefOf(a, req), b.tasks[a.turn].phase;
            && |b.tasks| == |a.tasks|
            && (q.Accepted? <==> gate == Proceed && ref !in t.receipts && !env.admitThrows && IsSafeInteger(durable + 1))
            && (q.Accepted? ==> q == Accepted(durable + 1) && Revision(u, a.session) == durable + 1)
            && (gate != Proceed ==> q == Refused(gate.reply) && u == t)
            && (gate == Proceed && !q.Accepted? ==>
                  q == Refused(if ref in t.receipts && !env.admitThrows
                               then OnRecord(durable, t.receipts[ref], req.fingerprint, env.fail) else env.fail))
            && (!q.Accepted? ==> u.receipts == t.receipts && Revision(u, a.session) == durable)
  {
    if RefOf(a, a.tasks[a.turn].req) !in t.receipts { CommitAnswers(a, t, env); } else { ExistingAnswers(a, t, env); }
  }

  lemma ExistingAnswers(a: Arbiter, t: Tables, env: Surroundings)
    requires a.turn < |a.tasks| && a.clock == Revision(t, a.session) && RefOf(a, a.tasks[a.turn].req) in t.receipts
    ensures var req, (b, u) := a.tasks[a.turn].req, Commit(a, t, env);
            && |b.tasks| == |a.tasks| && u.receipts == t.receipts && Revision(u, a.session) == Revision(t, a.session)
            && b.tasks[a.turn].phase ==
                 Refused(if env.admitThrows then env.fail
                         else OnRecord(a.clock, t.receipts[RefOf(a, req)], req.fingerprint, env.fail))
  {
  }

  // ---- submission ------------------------------------------------------------------------

  /** Submission `i` of that key has not been closed yet. */
  predicate IsOpen(a: Arbiter, i: nat, key: string) {
    i < |a.tasks| && a.tasks[i].req.key == key && !a.tasks[i].phase.Closed?
  }

  /** Every submission of that key was refused and has been closed. */
  ghost predicate AllRefused(a: Arbiter, key: string) {
    forall i :: 0 <= i < |a.tasks| && a.tasks[i].req.key == key ==> a.tasks[i].phase.Closed? && a.tasks[i].phase.admitted.None?
  }

  /**
   In every reachable state: a call of a key with an open submission joins that one if it carries the same fingerprint
   and is told the durable revision otherwise, so no key has two open submissions; a key whose submissions were all
   refused starts a new one; a fingerprint without canonical form is answered at once. Only a start changes anything.
   */
  lemma SubmissionIsExact(w: World, t: Tables, acts: seq<Action>, id: nat, req: Request, canonical: bool, fail: Reply)
    requires ReachedBy(w, t, acts) && id in w.arbiters
    ensures var a := w.arbiters[id];
            var durable, (b, s) := Revision(w.tables, a.session), Submit(a, req, canonical, fail);
            && (!canonical ==> s == Answered(fail))
            && (forall i: nat :: canonical && IsOpen(a, i, req.key) ==>
                  s == if a.tasks[i].req.fingerprint == req.fingerprint then Joined(i) else Answered(InvalidReuse(durable)))
            && (canonical && AllRefused(a, req.key) ==> s == Started(|a.tasks|))
            && (canonical ==> (s.Started? <==> req.key !in a.receipts))
            && (s.Joined? ==> s.task < |a.tasks| && a.tasks[s.task].req.key == req.key
                              && a.tasks[s.task].req.fingerprint == req.fingerprint)
            && (s.Answered? && canonical ==> s.reply == InvalidReuse(durable))
            && (s.Started? ==> |b.tasks| == |a.tasks| + 1 && b.tasks[..|a.tasks|] == a.tasks
                               && b.tasks[|a.tasks|].req == req && b.tasks[|a.tasks|].phase == Queued)
            && (!s.Started? ==> b == a)
  {
    hide *;
    Reached(w, t, acts, id);
    SubmitAnswers(w.arbiters[id], req, canonical, fail);
  }

  lemma SubmitAnswers(a: Arbiter, req: Request, canonical: bool, fail: Reply)
    requires Remembered(a) && OnlyAdmittedStay(a)
    ensures var (b, s) := Submit(a, req, canonical, fail);
            && (!canonical ==> s == Answered(fail))
            && (forall i: nat :: canonical && IsOpen(a, i, req.key) ==>
                  s == if a.tasks[i].req.fingerprint == req.fingerprint then Joined(i) else Answered(InvalidReuse(a.clock)))
            && (canonical && AllRefused(a, req.key) ==> s == Started(|a.tasks|))
            && (canonical ==> (s.Started? <==> req.key !in a.receipts))
            && (s.Joined? ==> s.task < |a.tasks| && a.tasks[s.task].req.key == req.key
                              && a.tasks[s.task].req.fingerprint == req.fingerprint)
            && (s.Answered? && canonical ==> s.reply == InvalidReuse(a.clock))
            && (s.Started? ==> |b.tasks| == |a.tasks| + 1 && b.tasks[..|a.tasks|] == a.tasks
                               && b.tasks[|a.tasks|].req == req && b.tasks[|a.tasks|].phase == Queued)
            && (!s.Started? ==> b == a)
  {
  }

  // ---- execution -------------------------------------------------------------------------

  predicate Waiting(p: Phase) { p.Queued? || p.Checking? }

  /** The first `n` submissions have been called; cancels among them are through admission before the normal `i` executes. */
  predicate HoldsBack(a: Arbiter, i: nat, n: nat) {
    && i < |a.tasks| && n <= |a.tasks| && a.tasks[i].req.lane == Normal
    && (a.tasks[i].phase.Fenced? ==> a.tasks[i].phase.seen >= n)
    && (a.tasks[i].phase.Executing? ==> forall c :: 0 <= c < n && a.tasks[c].req.lane == Cancel ==> !Waiting(a.tasks[c].phase))
  }

  lemma WaitingIs()
    ensures forall p :: Waiting(p) <==> p.Queued? || p.Checking?
  {
  }

  lemma NotWaiting(req: Request, ref: Ref, p: Phase, q: Phase, t: Tables, u: Tables, finishing: bool)
    requires PhaseEffect(req, ref, p, q, t, u, finishing) && !Waiting(p)
    ensures !Waiting(q)
  {
  }

  lemma StillNotWaiting(a: Arbiter, t: Tables, step: Step, c: nat)
    requires a.clock <= Revision(t, a.session) && CanTake(a, step) && c < |a.tasks|
    ensures var b := Take(a, t, step).0;
            c < |b.tasks| && b.tasks[c].req == a.tasks[c].req && (!Waiting(a.tasks[c].phase) ==> !Waiting(b.tasks[c].phase))
  {
    hide *;
    var (b, u) := Take(a, t, step);
    StepEffect(a, t, step);
    EffectGrows(a, t, step, b, u);
    EffectParts(a, t, step, b, u, c);
    if c == Focus(a, step) && !Waiting(a.tasks[c].phase) {
      NotWaiting(a.tasks[c].req, RefOf(a, a.tasks[c].req), a.tasks[c].phase, b.tasks[c].phase, t, u, step.DoFinish?);
    }
  }

  lemma EffectGrows(a: Arbiter, t: Tables, step: Step, b: Arbiter, u: Tables)
    requires CanTake(a, step) && Effect(a, t, step, b, u)
    ensures |a.tasks| <= |b.tasks|
  {
  }

  // Admission leads to no later phase than acceptance.
  lemma CommitMoves(a: Arbiter, t: Tables, env: Surroundings)
    requires a.turn < |a.tasks|
    ensures |Commit(a, t, env).0.tasks| == |a.tasks|
    ensures var q := Commit(a, t, env).0.tasks[a.turn].phase; q.Refused? || q.Accepted?
  {
  }

  lemma AdmissionMoves(a: Arbiter, t: Tables, step: Step)
    requires CanTake(a, step) && (step.DoBegin? || step.DoResume?)
    ensures a.turn < |a.tasks| == |Take(a, t, step).0.tasks|
    ensures var q := Take(a, t, step).0.tasks[a.turn].phase; q.Refused? || q.Accepted? || q.Checking?
  {
    hide Commit, Fresh, AdmitMutation, LookupMutation, Revision, DurableReply;
    CommitMoves(a, t, step.env);
  }

  lemma CloseMoves(a: Arbiter, i: nat)
    requires CanClose(a, i)
    ensures i < |Close(a, i).tasks| && Close(a, i).tasks[i].phase.Closed?
  {
    hide FirstEvictable;
  }

  // What the step made of the submission it worked on, when that is of the normal lane.
  lemma NormalMoves(a: Arbiter, t: Tables, step: Step, i: nat)
    requires CanTake(a, step) && i < |a.tasks| && Focus(a, step) == i && a.tasks[i].req.lane == Normal
    requires i < |Take(a, t, step).0.tasks|
    ensures var q := Take(a, t, step).0.tasks[i].phase;
            && (q.Fenced? ==> q.seen == |a.tasks|)
            && (q.Executing? ==> CanLaunch(a, i))
  {
    hide Begin, Resume, Close, CompleteMutation, Stored, Revision;
    TakeIs(a, t, step);
    match step
    case DoBegin(_) => AdmissionMoves(a, t, step);
    case DoResume(_, _) => AdmissionMoves(a, t, step);
    case DoClose(_) => CloseMoves(a, i);
    case _ =>
  }

  lemma StepHoldsBack(a: Arbiter, t: Tables, step: Step, i: nat, n: nat)
    requires Lanes(a) && a.clock <= Revision(t, a.session) && CanTake(a, step) && HoldsBack(a, i, n)
    ensures HoldsBack(Take(a, t, step).0, i, n)
  {
    hide *;
    var (b, u) := Take(a, t, step);
    StepEffect(a, t, step);
    EffectGrows(a, t, step, b, u);
    HoldsBackIs(a, i, n);
    EffectParts(a, t, step, b, u, i);
    if i == Focus(a, step) {
      NormalMoves(a, t, step, i);
      if b.tasks[i].phase.Executing? { FenceCovers(a, i, n); }
    }
    forall c | 0 <= c < n ensures b.tasks[c].req == a.tasks[c].req && (!Waiting(a.tasks[c].phase) ==> !Waiting(b.tasks[c].phase)) {
      StillNotWaiting(a, t, step, c);
    }
    HoldsBackIf(b, i, n);
  }

  lemma HoldsBackIs(a: Arbiter, i: nat, n: nat)
    requires HoldsBack(a, i, n)
    ensures i < |a.tasks| && n <= |a.tasks| && a.tasks[i].req.lane == Normal
    ensures a.tasks[i].phase.Fenced? ==> a.tasks[i].phase.seen >= n
    ensures a.tasks[i].phase.Executing? ==> forall c :: 0 <= c < n && a.tasks[c].req.lane == Cancel ==> !Waiting(a.tasks[c].phase)
  {
  }

  lemma HoldsBackIf(a: Arbiter, i: nat, n: nat)
    requires i < |a.tasks| && n <= |a.tasks| && a.tasks[i].req.lane == Normal
    requires a.tasks[i].phase.Fenced? ==> a.tasks[i].phase.seen >= n
    requires a.tasks[i].phase.Executing? ==> forall c :: 0 <= c < n && a.tasks[c].req.lane == Cancel ==> !Waiting(a.tasks[c].phase)
    ensures HoldsBack(a, i, n)
  {
  }

  lemma FenceCovers(a: Arbiter, i: nat, n: nat)
    requires Lanes(a) && CanLaunch(a, i) && n <= |a.tasks|
    requires i < |a.tasks| && a.tasks[i].phase.Fenced? ==> a.tasks[i].phase.seen >= n
    ensures forall c :: 0 <= c < n && a.tasks[c].req.lane == Cancel ==> !Waiting(a.tasks[c].phase)
  {
    LaunchAfterCancels(a, i);
  }

  /**
   Along every run: when a submission of the normal lane executes, every cancel that had been called while it was
   still waiting for its admission or its turn has been admitted or refused.
   */
  lemma {:induction false} CancelsGoFirst(w: World, acts: seq<Action>, id: nat, i: nat, n: nat)
    requires Inv(w) && Legal(w, acts) && id < w.issued
    requires id in w.arbiters ==> HoldsBack(w.arbiters[id], i, n)
    ensures id in After(w, acts).arbiters ==> HoldsBack(After(w, acts).arbiters[id], i, n)
    decreases |acts|
  {
    hide HoldsBack, Inv, Next, Enabled;
    if acts != [] {
      var x := Next(w, acts[0]);
      NextKeepsInv(w, acts[0]);
      NextIs(w, acts[0]);
      if acts[0].Run? && acts[0].id == id {
        InvParts(w);
        OkParts(w);
        BackedClock(w.arbiters[id], w.tables, w.owner, id);
        StepHoldsBack(w.arbiters[id], w.tables, acts[0].step, i, n);
      }
      CancelsGoFirst(x, acts[1..], id, i, n);
    }
  }

  /**
   Along every run: a submission of the normal lane that was still on its way to its turn in state `w` executes only
   after every cancel that had been called by then has been admitted or refused.
   */
  lemma NormalsWaitForCancels(w: World, acts: seq<Action>, id: nat, i: nat)
    requires Inv(w) && Legal(w, acts) && id in w.arbiters && i < |w.arbiters[id].tasks|
    requires var task := w.arbiters[id].tasks[i];
             task.req.lane == Normal && (task.phase.Queued? || task.phase.Checking? || task.phase.Accepted?)
    ensures id in After(w, acts).arbiters ==>
              var b := After(w, acts).arbiters[id];
              && |w.arbiters[id].tasks| <= |b.tasks|
              && (b.tasks[i].phase.Executing? ==>
                    forall c :: 0 <= c < |w.arbiters[id].tasks| && b.tasks[c].req.lane == Cancel ==>
                      !b.tasks[c].phase.Queued? && !b.tasks[c].phase.Checking?)
  {
    hide *;
    InvParts(w);
    OkParts(w);
    var n := |w.arbiters[id].tasks|;
    HoldsBackIf(w.arbiters[id], i, n);
    CancelsGoFirst(w, acts, id, i, n);
    if id in After(w, acts).arbiters {
      HoldsBackIs(After(w, acts).arbiters[id], i, n);
      WaitingIs();
    }
  }

  /** Only the normal lane waits for its turn to execute: an accepted control or cancel submission goes on at once. */
  lemma OtherLanesNeverWait(a: Arbiter, i: nat)
    requires Lanes(a) && i < |a.tasks| && a.tasks[i].phase.Accepted? && a.tasks[i].req.lane != Normal
    ensures CanConsume(a, i) && Consume(a, i).tasks[i].phase == Executing(a.tasks[i].phase.revision)
  {
  }

  /** Admission never waits for an execution: whoever has the turn can go on, however many are executing. */
  lemma AdmissionNeverWaits(a: Arbiter)
    requires Lanes(a) && a.turn < |a.tasks|
    ensures CanBegin(a) || CanResume(a)
  {
  }

  /**
   In every reachable world a finishing execution whose reply can be stored leaves exactly one receipt changed: the one
   of its key, which is now completed, or failed if it failed, under its fingerprint and revision and with that reply;
   and the call resolves to that reply. One whose reply cannot be stored leaves the ledger alone and answers `fail`.
   */
  lemma FinishIsExact(t: Tables, acts: seq<Action>, id: nat, i: nat, failed: bool, reply: Reply, storable: bool, fail: Reply)
    requires Valid(t) && Legal(Boot(t), acts) && Enabled(After(Boot(t), acts), Run(id, DoFinish(i, failed, reply, storable, fail)))
    ensures var w := After(Boot(t), acts);
            var a, x := w.arbiters[id], Next(w, Run(id, DoFinish(i, failed, reply, storable, fail)));
            && i < |a.tasks| && a.tasks[i].phase.Executing? && id in x.arbiters && i < |x.arbiters[id].tasks|
            && var req, revision := a.tasks[i].req, a.tasks[i].phase.revision;
               var ref := Ref(a.session, a.domain, req.key);
               && x.tables.sessions == w.tables.sessions
               && x.tables.receipts ==
                    (if storable
                     then w.tables.receipts[ref := Receipt(req.fingerprint, if failed then Failed else Completed, revision,
                                                           if reply == Undefined then None else Some(reply))]
                     else w.tables.receipts)
               && x.arbiters[id].tasks[i].phase == Settled(if storable then reply else fail, Some(revision))
               && x.arbiters[id].tasks[i].req == req
  {
    hide *;
    var w := After(Boot(t), acts);
    BootInv(t);
    RunsKeepInv(Boot(t), acts);
    ExecutingIs(w, id, i, failed, reply, storable, fail);
    InvParts(w);
    OkParts(w);
    FinishLeaves(w.arbiters[id], w.tables, w.owner, id, i, failed, reply, storable, fail);
    RunIs(w, id, DoFinish(i, failed, reply, storable, fail));
    TakeIs(w.arbiters[id], w.tables, DoFinish(i, failed, reply, storable, fail));
  }

  lemma ExecutingIs(w: World, id: nat, i: nat, failed: bool, reply: Reply, storable: bool, fail: Reply)
    requires Enabled(w, Run(id, DoFinish(i, failed, reply, storable, fail)))
    ensures id in w.arbiters && CanFinish(w.arbiters[id], i) && i < |w.arbiters[id].tasks|
    ensures w.arbiters[id].tasks[i].phase.Executing?
  {
  }

  lemma FinishLeaves(a: Arbiter, t: Tables, owner: map<Ref, Owner>, id: nat, i: nat,
                     failed: bool, reply: Reply, storable: bool, fail: Reply)
    requires Backed(a, t, owner, id) && CanFinish(a, i)
    ensures var (b, u) := Finish(a, t, i, failed, reply, storable, fail);
            var req, revision := a.tasks[i].req, a.tasks[i].phase.revision;
            var ref := Ref(a.session, a.domain, req.key);
            && u.sessions == t.sessions
            && u.receipts ==
                 (if storable
                  then t.receipts[ref := Receipt(req.fingerprint, if failed then Failed else Completed, revision,
                                                 if reply == Undefined then None else Some(reply))]
                  else t.receipts)
            && |b.tasks| == |a.tasks|
            && b.tasks[i].phase == Settled(if storable then reply else fail, Some(revision))
            && b.tasks[i].req == req
  {
    assert TaskBacked(a, t, owner, id, i);
  }

  lemma FinishRecords(t: Tables, acts: seq<Action>, id: nat, i: nat, failed: bool, reply: Reply, fail: Reply)
    requires Valid(t) && Legal(Boot(t), acts) && Enabled(After(Boot(t), acts), Run(id, DoFinish(i, failed, reply, true, fail)))
    requires reply != Undefined
    ensures var w := After(Boot(t), acts);
            && id in w.arbiters && i < |w.arbiters[id].tasks|
            && var req := w.arbiters[id].tasks[i].req;
               Recorded(Next(w, Run(id, DoFinish(i, failed, reply, true, fail))).tables, RefOf(w.arbiters[id], req), req.fingerprint, reply)
  {
    FinishIsExact(t, acts, id, i, failed, reply, true, fail);
  }

  /**
   Whether an execution completed or failed, once its reply is stored every later call of the key and fingerprint, on
   any arbiter and after any restart, resolves to that reply, unless its own lookup throws.
   */
  lemma FinishedMutationsReplay(t: Tables, before: seq<Action>, id: nat, i: nat, failed: bool, reply: Reply, fail: Reply,
                                after: seq<Action>, m: nat, j: nat)
    requires Valid(t) && Legal(Boot(t), before) && reply != Undefined
    requires Enabled(After(Boot(t), before), Run(id, DoFinish(i, failed, reply, true, fail)))
    requires var x := Next(After(Boot(t), before), Run(id, DoFinish(i, failed, reply, true, fail)));
             && Legal(x, after) && LookupAnswers(x, after, m, j) && m in After(x, after).arbiters
             && (m in x.arbiters && j < |x.arbiters[m].tasks| ==> x.arbiters[m].tasks[j].phase.Queued?)
             && id in After(Boot(t), before).arbiters && i < |After(Boot(t), before).arbiters[id].tasks|
             && var a := After(Boot(t), before).arbiters[id];
                Asks(After(x, after).arbiters[m], j, RefOf(a, a.tasks[i].req), a.tasks[i].req.fingerprint)
    ensures var x := Next(After(Boot(t), before), Run(id, DoFinish(i, failed, reply, true, fail)));
            && j < |After(x, after).arbiters[m].tasks|
            && var p := After(x, after).arbiters[m].tasks[j].phase;
               p.Queued? || ((p.Refused? || p.Done()) && p.reply == reply)
  {
    hide *;
    var w, act := After(Boot(t), before), Run(id, DoFinish(i, failed, reply, true, fail));
    BootInv(t);
    RunsKeepInv(Boot(t), before);
    NextKeepsInv(w, act);
    FinishRecords(t, before, id, i, failed, reply, fail);
    var ref, fingerprint := RefOf(w.arbiters[id], w.arbiters[id].tasks[i].req), w.arbiters[id].tasks[i].req.fingerprint;
    AsksIs(After(Next(w, act), after).arbiters[m], j, ref, fingerprint);
    LaterMutationsReplay(Next(w, act), after, m, j, ref, fingerprint, reply);
  }

  /** Binding a session makes its clock and the durable revision the larger of the two, and forgets no receipt. */
  lemma OpeningIsExact(t: Tables, session: string, domain: string, clock: nat)
    requires Valid(t) && IsSafeInteger(clock)
    ensures var (a, u) := Open(t, session, domain, clock);
            var larger := if clock > Revision(t, session) then clock else Revision(t, session);
            && a.clock == Revision(u, session) == larger && u.receipts == t.receipts
            && (forall s :: s != session ==> Revision(u, s) == Revision(t, s))
            && a.session == session && a.domain == domain && a.tasks == [] && a.receipts == map[]
            && a.active == 0 && a.generations == {}
  {
  }

  // ---- publication -----------------------------------------------------------------------

  /**
   In every reachable state: an autonomous publication moves clock and ledger up by exactly one when no admitted mutation
   is unfinished, and not at all otherwise; a durable one moves both to the given revision exactly when that is newer.
   */
  lemma PublicationsAreExact(w: World, t: Tables, acts: seq<Action>, id: nat, revision: int)
    requires ReachedBy(w, t, acts) && id in w.arbiters
    ensures var a := w.arbiters[id];
            var durable, idle := Revision(w.tables, a.session), HeldTasks(a.tasks) == {};
            var (b, u) := PublishAutonomous(a, w.tables);
            && (if idle && IsSafeInteger(durable + 1) then b.clock == durable + 1 == Revision(u, a.session) else b == a && u == w.tables)
            && u.receipts == w.tables.receipts && b == a.(clock := b.clock)
    ensures var a := w.arbiters[id];
            var durable, (b, u) := Revision(w.tables, a.session), PublishDurable(a, w.tables, revision);
            && (if IsSafeInteger(revision) && revision > durable then b.clock == revision == Revision(u, a.session)
                else b == a && u == w.tables)
            && u.receipts == w.tables.receipts && b == a.(clock := b.clock)
  {
    hide *;
    Reached(w, t, acts, id);
    LanesAreExact(w.arbiters[id], w.tables);
    ActiveIs(w.arbiters[id]);
    PublicationAnswers(w.arbiters[id], w.tables, revision);
  }

  lemma ActiveIs(a: Arbiter)
    ensures |HeldTasks(a.tasks)| == 0 <==> HeldTasks(a.tasks) == {}
  {
  }

  lemma PublicationAnswers(a: Arbiter, t: Tables, revision: int)
    requires a.clock == Revision(t, a.session)
    ensures var (b, u) := PublishAutonomous(a, t);
            && (if a.active == 0 && IsSafeInteger(a.clock + 1) then b.clock == a.clock + 1 == Revision(u, a.session) else b == a && u == t)
            && u.receipts == t.receipts && b == a.(clock := b.clock)
    ensures var (b, u) := PublishDurable(a, t, revision);
            && (if IsSafeInteger(revision) && revision > a.clock then b.clock == revision == Revision(u, a.session) else b == a && u == t)
            && u.receipts == t.receipts && b == a.(clock := b.clock)
  {
  }
}

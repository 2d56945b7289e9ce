/**
 Recorded answers: once the ledger holds a terminal receipt with a result, every later call of
 the same key and fingerprint resolves to that result, whether it starts a submission or joins one.
 */
module ArbiterReplay {
  import opened Base
  import opened ReceiptTables
  import opened ArbiterModel
  import opened ArbiterLanes
  import opened ArbiterWorld
  import opened ArbiterTheorems

  /** The ledger holds a terminal receipt of that fingerprint with that result. */
  predicate Recorded(t: Tables, ref: Ref, fingerprint: string, result: Reply) {
    && ref in t.receipts
    && t.receipts[ref].fingerprint == fingerprint
    && t.receipts[ref].status.Terminal()
    && t.receipts[ref].result == Some(result)
  }

  /** Submission `i` asks for that key and fingerprint. */
  predicate Asks(a: Arbiter, i: nat, ref: Ref, fingerprint: string) {
    i < |a.tasks| && RefOf(a, a.tasks[i].req) == ref && a.tasks[i].req.fingerprint == fingerprint
  }

  /** Not at its lookup yet, or answered with that result. */
  predicate Replays(p: Phase, result: Reply) {
    p.Queued? || ((p.Refused? || p.Done()) && p.reply == result)
  }

  predicate OwnLookupThrows(w: World, act: Action, id: nat, i: nat) {
    act.Run? && act.id == id && act.step.DoBegin? && act.step.env.lookupThrows
    && id in w.arbiters && w.arbiters[id].turn == i
  }

  /** Along the run the submission's own lookup in the ledger does not throw. */
  ghost predicate LookupAnswers(w: World, acts: seq<Action>, id: nat, i: nat)
    requires Legal(w, acts)
    decreases |acts|
  {
    acts == [] || (!OwnLookupThrows(w, acts[0], id, i) && LookupAnswers(Next(w, acts[0]), acts[1..], id, i))
  }

  // ---- one step of the arbiter ---------------------------------------------------------------

  lemma BeginReplays(a: Arbiter, t: Tables, env: Surroundings, result: Reply)
    requires CanBegin(a) && !env.lookupThrows
    requires Recorded(t, RefOf(a, a.tasks[a.turn].req), a.tasks[a.turn].req.fingerprint, result)
    ensures var (b, u) := Begin(a, t, env); u == t && a.turn < |b.tasks| && b.tasks[a.turn].phase == Refused(result)
  {
  }

  lemma OnlyBeginTakesQueued(a: Arbiter, step: Step)
    requires CanTake(a, step) && Focus(a, step) < |a.tasks| && a.tasks[Focus(a, step)].phase.Queued?
    ensures step.DoBegin? && Focus(a, step) == a.turn && CanBegin(a)
  {
  }

  lemma AnsweredStays(req: Request, ref: Ref, p: Phase, q: Phase, t: Tables, u: Tables, finishing: bool, result: Reply)
    requires PhaseEffect(req, ref, p, q, t, u, finishing) && Replays(p, result) && !p.Queued?
    ensures Replays(q, result)
  {
  }

  lemma EffectParts(a: Arbiter, t: Tables, step: Step, b: Arbiter, u: Tables, i: nat)
    requires CanTake(a, step) && Effect(a, t, step, b, u) && i < |b.tasks|
    ensures |a.tasks| <= |b.tasks| && b.session == a.session && b.domain == a.domain
    ensures i >= |a.tasks| ==> b.tasks[i].phase.Queued?
    ensures i < |a.tasks| ==> b.tasks[i].req == a.tasks[i].req && RefOf(b, b.tasks[i].req) == RefOf(a, a.tasks[i].req)
    ensures i < |a.tasks| && i != Focus(a, step) ==> b.tasks[i].phase == a.tasks[i].phase
    ensures i < |a.tasks| && i == Focus(a, step) ==>
              PhaseEffect(a.tasks[i].req, RefOf(a, a.tasks[i].req), a.tasks[i].phase, b.tasks[i].phase, t, u, step.DoFinish?)
  {
  }

  lemma StepReplays(a: Arbiter, t: Tables, step: Step, i: nat, ref: Ref, fingerprint: string, result: Reply)
    requires a.clock <= Revision(t, a.session) && CanTake(a, step) && Recorded(t, ref, fingerprint, result)
    requires Asks(a, i, ref, fingerprint) ==> Replays(a.tasks[i].phase, result)
    requires !(step.DoBegin? && step.env.lookupThrows && a.turn == i)
    ensures var b := Take(a, t, step).0; Asks(b, i, ref, fingerprint) ==> Replays(b.tasks[i].phase, result)
  {
    hide *;
    var (b, u) := Take(a, t, step);
    if Asks(b, i, ref, fingerprint) {
      AsksIs(b, i, ref, fingerprint);
      StepEffect(a, t, step);
      EffectParts(a, t, step, b, u, i);
      if i < |a.tasks| {
        AsksIf(a, i, ref, fingerprint);
        if i == Focus(a, step) {
          if a.tasks[i].phase.Queued? {
            OnlyBeginTakesQueued(a, step);
            TakeIs(a, t, step);
            BeginReplays(a, t, step.env, result);
          } else {
            AnsweredStays(a.tasks[i].req, RefOf(a, a.tasks[i].req), a.tasks[i].phase, b.tasks[i].phase, t, u, step.DoFinish?, result);
          }
        }
      }
      QueuedReplays(b.tasks[i].phase, result);
    }
  }

  lemma AsksIs(a: Arbiter, i: nat, ref: Ref, fingerprint: string)
    requires Asks(a, i, ref, fingerprint)
    ensures i < |a.tasks| && RefOf(a, a.tasks[i].req) == ref && a.tasks[i].req.fingerprint == fingerprint
  {
  }

  lemma AsksIf(a: Arbiter, i: nat, ref: Ref, fingerprint: string)
    requires i < |a.tasks| && RefOf(a, a.tasks[i].req) == ref && a.tasks[i].req.fingerprint == fingerprint
    ensures Asks(a, i, ref, fingerprint)
  {
  }

  lemma QueuedReplays(p: Phase, result: Reply)
    ensures p.Queued? || p == Refused(result) ==> Replays(p, result)
  {
  }

  // ---- over runs --------------------------------------------------------------------------------

  predicate Answering(w: World, id: nat, i: nat, ref: Ref, fingerprint: string, result: Reply) {
    id in w.arbiters && Asks(w.arbiters[id], i, ref, fingerprint) ==> Replays(w.arbiters[id].tasks[i].phase, result)
  }

  lemma NextIs(w: World, act: Action)
    requires Enabled(w, act)
    ensures var x := Next(w, act);
            match act
            case OpenArbiter(session, domain, clock) =>
              x.arbiters == w.arbiters[w.issued := Open(w.tables, session, domain, clock).0]
              && Open(w.tables, session, domain, clock).0.tasks == [] && x.issued == w.issued + 1
            case DropArbiter(id) => x.arbiters == w.arbiters - {id} && x.issued == w.issued
            case Recover => x.arbiters == w.arbiters && x.issued == w.issued
            case Reopen(_) => x.arbiters == w.arbiters && x.issued == w.issued
            case Run(id, step) =>
              id in w.arbiters && CanTake(w.arbiters[id], step) && x.issued == w.issued
              && x.arbiters == w.arbiters[id := Take(w.arbiters[id], w.tables, step).0]
              && x.tables == Take(w.arbiters[id], w.tables, step).1
  {
  }

  lemma RecordedStays(t: Tables, u: Tables, ref: Ref, fingerprint: string, result: Reply)
    requires Recorded(t, ref, fingerprint, result) && Grows(t, u)
    ensures Recorded(u, ref, fingerprint, result)
  {
  }

  lemma NextReplays(w: World, act: Action, id: nat, i: nat, ref: Ref, fingerprint: string, result: Reply)
    requires Inv(w) && Enabled(w, act) && Recorded(w.tables, ref, fingerprint, result)
    requires Answering(w, id, i, ref, fingerprint, result) && !OwnLookupThrows(w, act, id, i)
    ensures Answering(Next(w, act), id, i, ref, fingerprint, result)
  {
    hide *;
    NextIs(w, act);
    if act.Run? && act.id == id {
      ArbiterInStep(w, id);
      AnsweringActor(w, act, i, ref, fingerprint, result);
      StepReplays(w.arbiters[id], w.tables, act.step, i, ref, fingerprint, result);
      StillAnswering(Next(w, act), id, i, ref, fingerprint, result);
    } else {
      OthersAnswer(w, act, id, i, ref, fingerprint, result);
    }
  }

  lemma AnsweringActor(w: World, act: Action, i: nat, ref: Ref, fingerprint: string, result: Reply)
    requires act.Run? && act.id in w.arbiters && Answering(w, act.id, i, ref, fingerprint, result)
    ensures Asks(w.arbiters[act.id], i, ref, fingerprint) ==> Replays(w.arbiters[act.id].tasks[i].phase, result)
    ensures !OwnLookupThrows(w, act, act.id, i) ==>
              !(act.step.DoBegin? && act.step.env.lookupThrows && w.arbiters[act.id].turn == i)
  {
  }

  lemma StillAnswering(w: World, id: nat, i: nat, ref: Ref, fingerprint: string, result: Reply)
    requires id in w.arbiters
    requires Asks(w.arbiters[id], i, ref, fingerprint) ==> Replays(w.arbiters[id].tasks[i].phase, result)
    ensures Answering(w, id, i, ref, fingerprint, result)
  {
  }

  // A new arbiter has no submissions; one that takes no step keeps its own.
  lemma OthersAnswer(w: World, act: Action, id: nat, i: nat, ref: Ref, fingerprint: string, result: Reply)
    requires Enabled(w, act) && Answering(w, id, i, ref, fingerprint, result) && !(act.Run? && act.id == id)
    ensures Answering(Next(w, act), id, i, ref, fingerprint, result)
  {
    NextIs(w, act);
  }

  lemma {:induction false} RunsReplay(w: World, acts: seq<Action>, id: nat, i: nat, ref: Ref, fingerprint: string, result: Reply)
    requires Inv(w) && Legal(w, acts) && Recorded(w.tables, ref, fingerprint, result)
    requires Answering(w, id, i, ref, fingerprint, result) && LookupAnswers(w, acts, id, i)
    ensures Recorded(After(w, acts).tables, ref, fingerprint, result)
    ensures Answering(After(w, acts), id, i, ref, fingerprint, result)
    decreases |acts|
  {
    if acts != [] {
      NextKeepsInv(w, acts[0]);
      RecordedStays(w.tables, Next(w, acts[0]).tables, ref, fingerprint, result);
      NextReplays(w, acts[0], id, i, ref, fingerprint, result);
      RunsReplay(Next(w, acts[0]), acts[1..], id, i, ref, fingerprint, result);
    }
  }

  /**
   Once a receipt is terminal with a result, every submission of its key and fingerprint that has its lookup
   ahead of it (in particular every one submitted later, to this arbiter or to one opened after a restart)
   is refused with that result and resolves to it, unless its own lookup throws.
   */
  lemma LaterMutationsReplay(w: World, acts: seq<Action>, id: nat, i: nat, ref: Ref, fingerprint: string, result: Reply)
    requires Inv(w) && Legal(w, acts) && Recorded(w.tables, ref, fingerprint, result)
    requires id in w.arbiters && i < |w.arbiters[id].tasks| ==> w.arbiters[id].tasks[i].phase.Queued?
    requires LookupAnswers(w, acts, id, i)
    requires id in After(w, acts).arbiters && Asks(After(w, acts).arbiters[id], i, ref, fingerprint)
    ensures var p := After(w, acts).arbiters[id].tasks[i].phase;
            p.Queued? || ((p.Refused? || p.Done()) && p.reply == result)
    ensures Recorded(After(w, acts).tables, ref, fingerprint, result)
  {
    RunsReplay(w, acts, id, i, ref, fingerprint, result);
  }

  // ---- joining a call that is still in memory ----------------------------------------------------

  /**
   What a submission that was turned away, and is not closed yet, knows of its key: while it waits for its
   precondition there is no receipt, and if there is a terminal one with a result it answers with that.
   */
  predicate Honest(t: Tables, ref: Ref, fingerprint: string, p: Phase) {
    && (p.Checking? ==> ref !in t.receipts)
    && ((p.Refused? || (p.Settled? && p.admitted.None?)) && ref in t.receipts && t.receipts[ref].fingerprint == fingerprint
        && t.receipts[ref].status.Terminal() && t.receipts[ref].result.Some? ==>
          p.reply == t.receipts[ref].result.value)
  }

  predicate HonestAt(w: World, id: nat, i: nat) {
    id in w.arbiters && i < |w.arbiters[id].tasks| ==>
      var a := w.arbiters[id];
      Honest(w.tables, RefOf(a, a.tasks[i].req), a.tasks[i].req.fingerprint, a.tasks[i].phase)
  }

  /** Nothing an answer depends on has changed for the key. */
  predicate SameAnswer(t: Tables, u: Tables, ref: Ref) {
    && (ref in t.receipts <==> ref in u.receipts)
    && (ref in t.receipts ==>
          && t.receipts[ref].fingerprint == u.receipts[ref].fingerprint
          && (t.receipts[ref].status.Terminal() <==> u.receipts[ref].status.Terminal())
          && t.receipts[ref].result == u.receipts[ref].result)
  }

  lemma SameAnswerHonest(t: Tables, u: Tables, ref: Ref, fingerprint: string, p: Phase)
    requires Honest(t, ref, fingerprint, p) && SameAnswer(t, u, ref)
    ensures Honest(u, ref, fingerprint, p)
  {
  }

  lemma OpenPhases(t: Tables, ref: Ref, fingerprint: string, p: Phase)
    requires p.Queued? || p.Held() || p.Closed? || (p.Settled? && p.admitted.Some?)
    ensures Honest(t, ref, fingerprint, p)
  {
  }

  // ---- which keys a step writes

  lemma CompleteWrites(t: Tables, ref: Ref, status: Status, result: Option<Reply>, r: Ref)
    requires CompleteMutation(t, ref, status, result).Some? && r != ref
    ensures SameAnswer(t, CompleteMutation(t, ref, status, result).value, r)
  {
  }

  lemma AdmitWrites(t: Tables, ref: Ref, fingerprint: string, r: Ref)
    requires r != ref
    ensures SameAnswer(t, AdmitMutation(t, ref, fingerprint).0, r)
  {
  }

  lemma SeedWrites(t: Tables, session: string, revision: nat, r: Ref)
    ensures SameAnswer(t, SeedSessionRevision(t, session, revision), r) && SameAnswer(t, t, r)
  {
  }

  lemma RecoveryWrites(t: Tables, ref: Ref, r: Ref)
    ensures SameAnswer(t, RecoverInDoubt(t), r) && SameAnswer(t, ReopenMutation(t, ref), r)
  {
  }

  // A step writes no key but that of the unfinished submission it works on.
  lemma StepWrites(a: Arbiter, t: Tables, step: Step, r: Ref)
    requires CanTake(a, step)
    requires var k := Focus(a, step);
             k < |a.tasks| && !a.tasks[k].phase.Closed? ==> r != RefOf(a, a.tasks[k].req)
    ensures SameAnswer(t, Take(a, t, step).1, r)
  {
    hide *;
    TakeIs(a, t, step);
    SeedWrites(t, a.session, 0, r);
    FocusIs(a, step);
    match step
    case DoBegin(env) =>
      BeginTables(a, t, env);
      CommitTables(a, t, env);
      AdmitWrites(t, RefOf(a, a.tasks[a.turn].req), a.tasks[a.turn].req.fingerprint, r);
    case DoResume(gate, env) =>
      ResumeTables(a, t, gate, env);
      CommitTables(a, t, env);
      AdmitWrites(t, RefOf(a, a.tasks[a.turn].req), a.tasks[a.turn].req.fingerprint, r);
    case DoFinish(i, failed, reply, storable, fail) =>
      FinishTables(a, t, i, failed, reply, storable, fail);
      var status := if failed then Failed else Completed;
      if CompleteMutation(t, RefOf(a, a.tasks[i].req), status, Stored(reply)).Some? {
        CompleteWrites(t, RefOf(a, a.tasks[i].req), status, Stored(reply), r);
      }
    case DoAutonomous =>
      PublishTables(a, t, 0);
      SeedWrites(t, a.session, a.clock + 1, r);
    case DoDurable(revision) =>
      PublishTables(a, t, revision);
      if revision >= 0 { SeedWrites(t, a.session, revision, r); }
    case _ =>
  }

  lemma FocusIs(a: Arbiter, step: Step)
    requires CanTake(a, step)
    ensures step.DoBegin? || step.DoResume? ==> Focus(a, step) == a.turn < |a.tasks| && !a.tasks[a.turn].phase.Closed?
    ensures step.DoFinish? ==> Focus(a, step) == step.task < |a.tasks| && !a.tasks[step.task].phase.Closed?
  {
  }

  // ---- the submission's own steps

  lemma CommitHonest(a: Arbiter, t: Tables, env: Surroundings)
    requires a.turn < |a.tasks| && RefOf(a, a.tasks[a.turn].req) !in t.receipts
    ensures var (b, u) := Commit(a, t, env);
            && a.turn < |b.tasks|
            && Honest(u, RefOf(a, a.tasks[a.turn].req), a.tasks[a.turn].req.fingerprint, b.tasks[a.turn].phase)
  {
  }

  lemma BeginHonest(a: Arbiter, t: Tables, env: Surroundings)
    requires CanBegin(a) && !env.lookupThrows
    ensures var (b, u) := Begin(a, t, env);
            && a.turn < |b.tasks|
            && Honest(u, RefOf(a, a.tasks[a.turn].req), a.tasks[a.turn].req.fingerprint, b.tasks[a.turn].phase)
  {
    if RefOf(a, a.tasks[a.turn].req) !in t.receipts { CommitHonest(a, t, env); }
  }

  lemma ResumeHonest(a: Arbiter, t: Tables, gate: Gate, env: Surroundings)
    requires CanResume(a) && RefOf(a, a.tasks[a.turn].req) !in t.receipts
    ensures var (b, u) := Resume(a, t, gate, env);
            && a.turn < |b.tasks|
            && Honest(u, RefOf(a, a.tasks[a.turn].req), a.tasks[a.turn].req.fingerprint, b.tasks[a.turn].phase)
  {
    CommitHonest(a, t, env);
  }

  lemma LaterHonest(a: Arbiter, t: Tables, step: Step, i: nat)
    requires CanTake(a, step) && (step.DoConsume? || step.DoLaunch? || step.DoClose?) && Focus(a, step) == i < |a.tasks|
    requires Honest(t, RefOf(a, a.tasks[i].req), a.tasks[i].req.fingerprint, a.tasks[i].phase)
    ensures var (b, u) := Take(a, t, step);
            u == t && i < |b.tasks| && Honest(u, RefOf(a, a.tasks[i].req), a.tasks[i].req.fingerprint, b.tasks[i].phase)
  {
    match step
    case DoConsume(_) =>
    case DoLaunch(_) =>
    case DoClose(_) =>
      CloseMoves(a, i);
  }

  lemma FinishHonest(a: Arbiter, t: Tables, step: Step, i: nat)
    requires CanTake(a, step) && step.DoFinish? && step.task == i
    ensures var (b, u) := Take(a, t, step);
            i < |b.tasks| && i < |a.tasks| && Honest(u, RefOf(a, a.tasks[i].req), a.tasks[i].req.fingerprint, b.tasks[i].phase)
  {
  }

  lemma OwnStepHonest(a: Arbiter, t: Tables, step: Step, i: nat)
    requires CanTake(a, step) && Focus(a, step) == i < |a.tasks|
    requires Honest(t, RefOf(a, a.tasks[i].req), a.tasks[i].req.fingerprint, a.tasks[i].phase)
    requires !(step.DoBegin? && step.env.lookupThrows)
    ensures var (b, u) := Take(a, t, step);
            i < |b.tasks| && Honest(u, RefOf(a, a.tasks[i].req), a.tasks[i].req.fingerprint, b.tasks[i].phase)
  {
    hide *;
    TakeIs(a, t, step);
    OwnFocus(a, step);
    match step
    case DoBegin(env) => BeginHonest(a, t, env);
    case DoResume(gate, env) =>
      CheckingIs(a, t);
      ResumeHonest(a, t, gate, env);
    case DoFinish(_, _, _, _, _) => FinishHonest(a, t, step, i);
    case _ => LaterHonest(a, t, step, i);
  }

  lemma OwnFocus(a: Arbiter, step: Step)
    requires Focus(a, step) < |a.tasks|
    ensures step.DoBegin? || step.DoResume? || step.DoFinish? || step.DoConsume? || step.DoLaunch? || step.DoClose?
    ensures step.DoBegin? || step.DoResume? ==> Focus(a, step) == a.turn
    ensures step.DoFinish? ==> Focus(a, step) == step.task
  {
  }

  lemma CheckingIs(a: Arbiter, t: Tables)
    requires CanResume(a) && Honest(t, RefOf(a, a.tasks[a.turn].req), a.tasks[a.turn].req.fingerprint, a.tasks[a.turn].phase)
    ensures RefOf(a, a.tasks[a.turn].req) !in t.receipts
  {
  }

  // ---- any action of the system

  lemma OneOpenPerKey(a: Arbiter, i: nat, k: nat)
    requires Remembered(a) && i < |a.tasks| && k < |a.tasks| && i != k
    requires !a.tasks[i].phase.Closed? && !a.tasks[k].phase.Closed?
    ensures RefOf(a, a.tasks[i].req) != RefOf(a, a.tasks[k].req)
  {
  }

  lemma OtherSession(w: World, m: nat, id: nat, k: nat, i: nat)
    requires Exclusive(w) && m in w.arbiters && id in w.arbiters && m != id
    requires k < |w.arbiters[m].tasks| && i < |w.arbiters[id].tasks|
    ensures RefOf(w.arbiters[m], w.arbiters[m].tasks[k].req) != RefOf(w.arbiters[id], w.arbiters[id].tasks[i].req)
  {
  }

  // An action that does not work on the submission leaves its key alone while it is open.
  lemma KeyIsLeftAlone(w: World, act: Action, id: nat, i: nat)
    requires Inv(w) && Exclusive(w) && Enabled(w, act)
    requires id in w.arbiters && i < |w.arbiters[id].tasks| && !w.arbiters[id].tasks[i].phase.Closed?
    requires !(act.Run? && act.id == id && Focus(w.arbiters[id], act.step) == i)
    ensures SameAnswer(w.tables, Next(w, act).tables, RefOf(w.arbiters[id], w.arbiters[id].tasks[i].req))
  {
    hide *;
    NextIs(w, act);
    TablesOf(w, act);
    InvParts(w);
    OkParts(w);
    var r := RefOf(w.arbiters[id], w.arbiters[id].tasks[i].req);
    match act
    case OpenArbiter(session, _, clock) => SeedWrites(w.tables, session, clock, r);
    case DropArbiter(_) => SeedWrites(w.tables, "", 0, r);
    case Recover => RecoveryWrites(w.tables, r, r);
    case Reopen(ref) => RecoveryWrites(w.tables, ref, r);
    case Run(m, step) =>
      var a, k := w.arbiters[m], Focus(w.arbiters[m], step);
      if k < |a.tasks| && !a.tasks[k].phase.Closed? {
        if m == id {
          LanesParts(a);
          OneOpenPerKey(a, i, k);
        } else {
          OtherSession(w, m, id, k, i);
        }
      }
      StepWrites(a, w.tables, step, r);
  }

  lemma TablesOf(w: World, act: Action)
    requires Enabled(w, act)
    ensures match act
      case OpenArbiter(session, _, clock) => Next(w, act).tables == SeedSessionRevision(w.tables, session, clock)
      case DropArbiter(_) => Next(w, act).tables == w.tables
      case Recover => Next(w, act).tables == RecoverInDoubt(w.tables)
      case Reopen(ref) => Next(w, act).tables == ReopenMutation(w.tables, ref)
      case Run(_, _) => true
  {
  }

  lemma NextHonest(w: World, act: Action, id: nat, i: nat)
    requires Inv(w) && Exclusive(w) && Enabled(w, act) && HonestAt(w, id, i) && !OwnLookupThrows(w, act, id, i)
    ensures HonestAt(Next(w, act), id, i)
  {
    hide *;
    NextIs(w, act);
    var x := Next(w, act);
    if id in x.arbiters && i < |x.arbiters[id].tasks| {
      var b := x.arbiters[id];
      if act.Run? && act.id == id {
        RunHonest(w, act.step, id, i);
      } else if id in w.arbiters {
        assert b == w.arbiters[id];
        HonestIs(w, id, i);
        var ref, fp, p := RefOf(b, b.tasks[i].req), b.tasks[i].req.fingerprint, b.tasks[i].phase;
        if p.Closed? { OpenPhases(x.tables, ref, fp, p); }
        else {
          KeyIsLeftAlone(w, act, id, i);
          SameAnswerHonest(w.tables, x.tables, ref, fp, p);
        }
      }
    }
    HonestIf(x, id, i);
  }

  lemma HonestIs(w: World, id: nat, i: nat)
    requires HonestAt(w, id, i) && id in w.arbiters && i < |w.arbiters[id].tasks|
    ensures var a := w.arbiters[id];
            Honest(w.tables, RefOf(a, a.tasks[i].req), a.tasks[i].req.fingerprint, a.tasks[i].phase)
  {
  }

  lemma HonestIf(w: World, id: nat, i: nat)
    requires id in w.arbiters && i < |w.arbiters[id].tasks| ==>
               var a := w.arbiters[id];
               Honest(w.tables, RefOf(a, a.tasks[i].req), a.tasks[i].req.fingerprint, a.tasks[i].phase)
    ensures HonestAt(w, id, i)
  {
  }

  lemma RunHonest(w: World, step: Step, id: nat, i: nat)
    requires Inv(w) && Exclusive(w) && Enabled(w, Run(id, step)) && HonestAt(w, id, i)
    requires !OwnLookupThrows(w, Run(id, step), id, i)
    requires id in w.arbiters && CanTake(w.arbiters[id], step)
    requires i < |Take(w.arbiters[id], w.tables, step).0.tasks|
    ensures var (b, u) := Take(w.arbiters[id], w.tables, step);
            Honest(u, RefOf(b, b.tasks[i].req), b.tasks[i].req.fingerprint, b.tasks[i].phase)
  {
    hide *;
    var a := w.arbiters[id];
    var (b, u) := Take(a, w.tables, step);
    InvParts(w);
    OkParts(w);
    BackedClock(a, w.tables, w.owner, id);
    StepEffect(a, w.tables, step);
    EffectParts(a, w.tables, step, b, u, i);
    var ref, fp, p := RefOf(b, b.tasks[i].req), b.tasks[i].req.fingerprint, b.tasks[i].phase;
    if i >= |a.tasks| {
      OpenPhases(u, ref, fp, p);
    } else {
      HonestIs(w, id, i);
      if Focus(a, step) == i {
        LookupGiven(w, step, id, i);
        OwnStepHonest(a, w.tables, step, i);
      } else if p.Closed? {
        OpenPhases(u, ref, fp, p);
      } else {
        NextIs(w, Run(id, step));
        KeyIsLeftAlone(w, Run(id, step), id, i);
        SameAnswerHonest(w.tables, u, ref, fp, p);
      }
    }
  }

  lemma LookupGiven(w: World, step: Step, id: nat, i: nat)
    requires id in w.arbiters && Focus(w.arbiters[id], step) == i && !OwnLookupThrows(w, Run(id, step), id, i)
    ensures !(step.DoBegin? && step.env.lookupThrows)
  {
  }

  lemma {:induction false} RunsHonest(w: World, acts: seq<Action>, id: nat, i: nat)
    requires Inv(w) && Legal(w, acts) && ExclusiveRun(w, acts) && HonestAt(w, id, i) && LookupAnswers(w, acts, id, i)
    ensures HonestAt(After(w, acts), id, i) && Inv(After(w, acts))
    decreases |acts|
  {
    if acts != [] {
      NextKeepsInv(w, acts[0]);
      NextHonest(w, acts[0], id, i);
      RunsHonest(Next(w, acts[0]), acts[1..], id, i);
    }
  }

  // ---- joins ---------------------------------------------------------------------------------------

  /** The submission a call joins is remembered, asks for the same and is not closed as refused. */
  lemma JoinedIs(a: Arbiter, req: Request, fail: Reply, i: nat)
    requires Remembered(a) && OnlyAdmittedStay(a) && Submit(a, req, true, fail).1 == Joined(i)
    ensures Asks(a, i, RefOf(a, req), req.fingerprint)
    ensures a.tasks[i].phase.Closed? ==> a.tasks[i].phase.admitted.Some?
  {
  }

  // A joined submission of a key with a recorded result has its lookup ahead of it or that result.
  lemma JoinedReplays(a: Arbiter, t: Tables, owner: map<Ref, Owner>, id: nat, i: nat, ref: Ref, fingerprint: string, result: Reply)
    requires Backed(a, t, owner, id) && Asks(a, i, ref, fingerprint) && Recorded(t, ref, fingerprint, result)
    requires Honest(t, ref, fingerprint, a.tasks[i].phase)
    requires a.tasks[i].phase.Closed? ==> a.tasks[i].phase.admitted.Some?
    ensures Replays(a.tasks[i].phase, result)
  {
    assert TaskBacked(a, t, owner, id, i);
  }

  lemma {:induction false} AskedStays(w: World, acts: seq<Action>, id: nat, i: nat, ref: Ref, fingerprint: string)
    requires Inv(w) && Legal(w, acts) && id < w.issued
    requires id in w.arbiters ==> Asks(w.arbiters[id], i, ref, fingerprint)
    ensures id in After(w, acts).arbiters ==> Asks(After(w, acts).arbiters[id], i, ref, fingerprint)
    decreases |acts|
  {
    if acts != [] {
      NextKeepsInv(w, acts[0]);
      NextAsks(w, acts[0], id, i, ref, fingerprint);
      AskedStays(Next(w, acts[0]), acts[1..], id, i, ref, fingerprint);
    }
  }

  lemma NextAsks(w: World, act: Action, id: nat, i: nat, ref: Ref, fingerprint: string)
    requires Inv(w) && Enabled(w, act) && id < w.issued
    requires id in w.arbiters ==> Asks(w.arbiters[id], i, ref, fingerprint)
    ensures id < Next(w, act).issued
    ensures id in Next(w, act).arbiters ==> Asks(Next(w, act).arbiters[id], i, ref, fingerprint)
  {
    hide *;
    NextIs(w, act);
    if act.Run? && act.id == id {
      var a := w.arbiters[id];
      InvParts(w);
      OkParts(w);
      BackedClock(a, w.tables, w.owner, id);
      AsksIs(a, i, ref, fingerprint);
      StepEffect(a, w.tables, act.step);
      EffectLength(a, w.tables, act.step, Take(a, w.tables, act.step).0, Take(a, w.tables, act.step).1);
      EffectParts(a, w.tables, act.step, Take(a, w.tables, act.step).0, Take(a, w.tables, act.step).1, i);
      AsksIf(Take(a, w.tables, act.step).0, i, ref, fingerprint);
    }
  }

  lemma EffectLength(a: Arbiter, t: Tables, step: Step, b: Arbiter, u: Tables)
    requires CanTake(a, step) && Effect(a, t, step, b, u)
    ensures |a.tasks| <= |b.tasks|
  {
  }

  /**
   With one arbiter per session, a call that joins a submission still in memory, in whatever phase, once the
   receipt is terminal with a result, gets that result when the submission resolves, unless that submission's
   own lookup threw.
   */
  lemma JoinedMutationsReplay(t: Tables, before: seq<Action>, after: seq<Action>, id: nat, req: Request, fail: Reply,
                              i: nat, result: Reply)
    requires Valid(t) && Legal(Boot(t), before) && ExclusiveRun(Boot(t), before) && Legal(After(Boot(t), before), after)
    requires id in After(Boot(t), before).arbiters
    requires Submit(After(Boot(t), before).arbiters[id], req, true, fail).1 == Joined(i)
    requires Recorded(After(Boot(t), before).tables, RefOf(After(Boot(t), before).arbiters[id], req), req.fingerprint, result)
    requires LookupAnswers(Boot(t), before, id, i) && LookupAnswers(After(Boot(t), before), after, id, i)
    requires id in After(After(Boot(t), before), after).arbiters
    ensures var b := After(After(Boot(t), before), after).arbiters[id];
            && i < |b.tasks|
            && (b.tasks[i].phase.Queued? || ((b.tasks[i].phase.Refused? || b.tasks[i].phase.Done()) && b.tasks[i].phase.reply == result))
  {
    hide *;
    var w := After(Boot(t), before);
    var a := w.arbiters[id];
    var ref := RefOf(a, req);
    BootHonest(t, id, i);
    RunsHonest(Boot(t), before, id, i);
    InvParts(w);
    OkParts(w);
    LanesParts(a);
    JoinedIs(a, req, fail, i);
    AsksIs(a, i, ref, req.fingerprint);
    HonestIs(w, id, i);
    JoinedReplays(a, w.tables, w.owner, id, i, ref, req.fingerprint, result);
    AnsweringIf(w, id, i, ref, req.fingerprint, result);
    RunsReplay(w, after, id, i, ref, req.fingerprint, result);
    AskedStays(w, after, id, i, ref, req.fingerprint);
    AnsweringIs(After(w, after), id, i, ref, req.fingerprint, result);
  }

  lemma BootHonest(t: Tables, id: nat, i: nat)
    requires Valid(t)
    ensures Inv(Boot(t)) && HonestAt(Boot(t), id, i)
  {
    BootInv(t);
  }

  lemma AnsweringIf(w: World, id: nat, i: nat, ref: Ref, fingerprint: string, result: Reply)
    requires id in w.arbiters && i < |w.arbiters[id].tasks| && Replays(w.arbiters[id].tasks[i].phase, result)
    ensures Answering(w, id, i, ref, fingerprint, result)
  {
  }

  lemma AnsweringIs(w: World, id: nat, i: nat, ref: Ref, fingerprint: string, result: Reply)
    requires Answering(w, id, i, ref, fingerprint, result) && id in w.arbiters && Asks(w.arbiters[id], i, ref, fingerprint)
    ensures i < |w.arbiters[id].tasks|
    ensures var p := w.arbiters[id].tasks[i].phase;
            p.Queued? || ((p.Refused? || p.Done()) && p.reply == result)
  {
  }
}

/**
 The arbiter as an object bound to a ledger. Each method is one stretch between awaits
 and is proved to be the step of the same name of the transition system.
 */
module MutationArbiter {
  import opened Base
  import opened ReceiptTables
  import opened ArbiterModel
  import opened ArbiterLanes
  import opened RuntimeLedger

  class RuntimeSessionMutationArbiter {
    const ledger: SqliteRuntimeLedger
    const sessionId: string
    const domain: string
    var clock: nat
    var tasks: seq<Task>
    var admissionTurn: nat
    var normalTail: nat
    var cancelTail: nat
    var receipts: map<string, nat>
    var activeMutations: int
    var activeNormalGenerations: set<nat>

    ghost function State(): Arbiter
      reads this
    {
      Arbiter(sessionId, domain, clock, tasks, admissionTurn, normalTail, cancelTail, receipts,
              activeMutations, activeNormalGenerations)
    }

    constructor (clock: nat, ledger: SqliteRuntimeLedger, sessionId: string, domain: string)
      requires IsSafeInteger(clock)
      modifies ledger`sessions
      ensures this.ledger == ledger
      ensures (State(), ledger.Tables()) == Open(old(ledger.Tables()), sessionId, domain, clock)
    {
      this.ledger, this.sessionId, this.domain := ledger, sessionId, domain;
      this.clock := clock;
      tasks, admissionTurn, normalTail, cancelTail, receipts := [], 0, 0, 0, map[];
      activeMutations, activeNormalGenerations := 0, {};
      new;
      var seeded := ledger.SeedSessionRevision(sessionId, clock);
      this.clock := seeded.value;
    }

    method IsMutationActive() returns (b: bool)
      requires Lanes(State())
      ensures b <==> exists i :: 0 <= i < |tasks| && tasks[i].phase.Held()
    {
      b := activeMutations > 0;
      if i :| 0 <= i < |tasks| && tasks[i].phase.Held() { SumPositive(tasks, i); }
      if b { HeldFromSum(tasks); }
    }

    method PublishAutonomous() returns (revision: nat)
      modifies this`clock, ledger`sessions
      ensures (State(), ledger.Tables()) == ArbiterModel.PublishAutonomous(old(State()), old(ledger.Tables()))
      ensures revision == clock
    {
      if activeMutations == 0 {
        var seeded := ledger.SeedSessionRevision(sessionId, clock + 1);
        if seeded.Some? { clock := seeded.value; }
      }
      revision := clock;
    }

    method PublishDurable(revision: int) returns (current: nat)
      modifies this`clock, ledger`sessions
      ensures (State(), ledger.Tables()) == ArbiterModel.PublishDurable(old(State()), old(ledger.Tables()), revision)
      ensures current == clock
    {
      if IsSafeInteger(revision) && revision > clock {
        var seeded := ledger.SeedSessionRevision(sessionId, revision);
        clock := seeded.value;
      }
      current := clock;
    }

    method Mutate(req: Request, canonical: bool, fail: Reply) returns (s: Submission)
      requires Remembered(State())
      modifies this`tasks, this`normalTail, this`cancelTail, this`receipts
      ensures (State(), s) == Submit(old(State()), req, canonical, fail)
    {
      if !canonical { return Answered(fail); }
      if req.key in receipts {
        var prior := receipts[req.key];
        return if tasks[prior].req.fingerprint == req.fingerprint then Joined(prior) else Answered(InvalidReuse(clock));
      }
      var id := |tasks|;
      var follows := 0;
      if req.lane.Cancel? { cancelTail := id + 1; }
      if req.lane.Normal? {
        follows := normalTail;
        normalTail := id + 1;
      }
      tasks := tasks + [Task(req, follows, Queued)];
      receipts := receipts[req.key := id];
      s := Started(id);
    }

    // ---- admission ---------------------------------------------------------------------

    method Refuse(reply: Reply)
      requires admissionTurn < |tasks|
      modifies this`tasks, this`admissionTurn
      ensures State() == ArbiterModel.Refuse(old(State()), reply)
    {
      tasks := tasks[admissionTurn := tasks[admissionTurn].(phase := Refused(reply))];
      admissionTurn := admissionTurn + 1;
    }

    method DurableResult(lookup: Lookup, fail: Reply)
      requires admissionTurn < |tasks| && !lookup.Miss?
      modifies this`tasks, this`admissionTurn, this`clock
      ensures State() == AnswerDurably(old(State()), ledger.Tables(), lookup, fail)
    {
      if sessionId in ledger.sessions && ledger.sessions[sessionId].revision > clock {
        clock := ledger.sessions[sessionId].revision;
      }
      match lookup {
        case Mismatch(_, _) => Refuse(InvalidReuse(clock));
        case Replay(status, _, result) =>
          if status.Terminal() && result.Some? { Refuse(result.value); } else { Refuse(fail); }
      }
    }

    /** Math.min over the active generations. */
    method OldestGeneration() returns (oldest: Option<nat>)
      ensures oldest.None? <==> activeNormalGenerations == {}
      ensures oldest.Some? ==> oldest.value in activeNormalGenerations
                               && forall g :: g in activeNormalGenerations ==> oldest.value <= g
    {
      oldest := None;
      var rest := activeNormalGenerations;
      while rest != {}
        invariant rest <= activeNormalGenerations
        invariant oldest.None? ==> rest == activeNormalGenerations
        invariant oldest.Some? ==> oldest.value in activeNormalGenerations
                                   && forall g :: g in activeNormalGenerations && g !in rest ==> oldest.value <= g
        decreases |rest|
      {
        var g :| g in rest;
        if oldest.None? || g < oldest.value { oldest := Some(g); }
        rest := rest - {g};
      }
    }

    method Commit(env: Surroundings)
      requires admissionTurn < |tasks|
      modifies this`tasks, this`admissionTurn, this`clock, this`activeMutations, this`activeNormalGenerations,
               ledger`sessions, ledger`receipts
      ensures (State(), ledger.Tables()) == ArbiterModel.Commit(old(State()), old(ledger.Tables()), env)
    {
      if env.admitThrows {
        Refuse(env.fail);
        return;
      }
      var req := tasks[admissionTurn].req;
      var result := ledger.AdmitMutation(Ref(sessionId, domain, req.key), req.fingerprint);
      match result {
        case AdmitThrows => Refuse(env.fail);
        case Existing(lookup) => DurableResult(lookup, env.fail);
        case AdmittedAt(revision) =>
          clock := revision;
          activeMutations := activeMutations + 1;
          if req.lane.Normal? || req.bindsCancel {
            activeNormalGenerations := activeNormalGenerations + {revision};
          }
          tasks := tasks[admissionTurn := tasks[admissionTurn].(phase := Accepted(revision))];
          admissionTurn := admissionTurn + 1;
      }
    }

    method BeginAdmission(env: Surroundings)
      requires CanBegin(State())
      modifies this`tasks, this`admissionTurn, this`clock, this`activeMutations, this`activeNormalGenerations,
               ledger`sessions, ledger`receipts
      ensures (State(), ledger.Tables()) == Begin(old(State()), old(ledger.Tables()), env)
    {
      var req := tasks[admissionTurn].req;
      if env.lookupThrows {
        Refuse(env.fail);
        return;
      }
      var lookup := ledger.LookupMutation(Ref(sessionId, domain, req.key), req.fingerprint);
      if !lookup.Miss? {
        DurableResult(lookup, env.fail);
        return;
      }
      var oldest := OldestGeneration();
      var stalePreemptiveCancel :=
        req.lane.Cancel? && oldest.Some? && IsSafeInteger(req.expectedRevision)
        && 0 <= req.expectedRevision < clock && req.expectedRevision + 1 >= oldest.value;
      assert stalePreemptiveCancel == StalePreemptiveCancel(State(), req);
      var acceptsLatestIdentity := false;
      if clock != req.expectedRevision && !req.acceptLatest && req.checksIdentity {
        if env.identity.Throws? {
          Refuse(env.fail);
          return;
        }
        acceptsLatestIdentity := env.identity.Holds?;
      }
      if clock != req.expectedRevision && !stalePreemptiveCancel && !req.acceptLatest && !acceptsLatestIdentity {
        Refuse(Conflict(clock));
        return;
      }
      if req.checksPrecondition {
        tasks := tasks[admissionTurn := tasks[admissionTurn].(phase := Checking)];
        return;
      }
      Commit(env);
    }

    method ResumeAdmission(gate: Gate, env: Surroundings)
      requires CanResume(State())
      modifies this`tasks, this`admissionTurn, this`clock, this`activeMutations, this`activeNormalGenerations,
               ledger`sessions, ledger`receipts
      ensures (State(), ledger.Tables()) == Resume(old(State()), old(ledger.Tables()), gate, env)
    {
      match gate {
        case Proceed => Commit(env);
        case Stop(reply) => Refuse(reply);
        case Throw(reply) => Refuse(reply);
      }
    }

    // ---- execution -----------------------------------------------------------------------

    method ConsumeAdmission(i: nat)
      requires CanConsume(State(), i)
      modifies this`tasks
      ensures State() == Consume(old(State()), i)
    {
      match tasks[i].phase {
        case Refused(reply) => tasks := tasks[i := tasks[i].(phase := Settled(reply, None))];
        case Accepted(revision) =>
          if tasks[i].req.lane.Normal? {
            tasks := tasks[i := tasks[i].(phase := Fenced(revision, cancelTail, |tasks|))];
          } else {
            tasks := tasks[i := tasks[i].(phase := Executing(revision))];
          }
        case _ =>
      }
    }

    method StartExecution(i: nat)
      requires CanLaunch(State(), i)
      modifies this`tasks
      ensures State() == Launch(old(State()), i)
    {
      tasks := tasks[i := tasks[i].(phase := Executing(tasks[i].phase.revision))];
    }

    method FinishExecution(i: nat, failed: bool, reply: Reply, storable: bool, fail: Reply)
      requires CanFinish(State(), i)
      modifies this`tasks, this`activeMutations, this`activeNormalGenerations, ledger`receipts
      ensures (State(), ledger.Tables()) == Finish(old(State()), old(ledger.Tables()), i, failed, reply, storable, fail)
    {
      var req, revision := tasks[i].req, tasks[i].phase.revision;
      activeMutations := activeMutations - 1;
      if req.lane.Normal? || req.bindsCancel {
        activeNormalGenerations := activeNormalGenerations - {revision};
      }
      var recorded := false;
      if storable {
        recorded := ledger.CompleteMutation(Ref(sessionId, domain, req.key),
                                            if failed then Failed else Completed, Stored(reply));
      }
      tasks := tasks[i := tasks[i].(phase := Settled(if recorded then reply else fail, Some(revision)))];
    }

    method CloseMutation(i: nat)
      requires CanClose(State(), i)
      modifies this`tasks, this`receipts
      ensures State() == Close(old(State()), i)
    {
      var key, p := tasks[i].req.key, tasks[i].phase;
      tasks := tasks[i := tasks[i].(phase := Closed(p.reply, p.admitted))];
      if p.admitted.None? && key in receipts && receipts[key] == i {
        receipts := receipts - {key};
      }
      if |receipts| > RECEIPT_LIMIT {
        ghost var kept := receipts;
        var j := 0;
        while j < |tasks| && !Evictable(tasks, receipts, key, j)
          invariant 0 <= j <= |tasks|
          invariant FirstEvictable(tasks, kept, key, 0) == FirstEvictable(tasks, kept, key, j)
        {
          j := j + 1;
        }
        if j < |tasks| {
          receipts := receipts - {tasks[j].req.key};
        }
      }
    }
  }

  lemma {:induction false} HeldFromSum(tasks: seq<Task>)
    requires Sum(tasks, HeldWeight) > 0
    ensures exists i :: 0 <= i < |tasks| && tasks[i].phase.Held()
  {
    if tasks[0].phase.Held() {
      assert 0 < |tasks|;
    } else {
      HeldFromSum(tasks[1..]);
      var i :| 0 <= i < |tasks[1..]| && tasks[1..][i].phase.Held();
      assert tasks[i + 1].phase.Held();
    }
  }
}

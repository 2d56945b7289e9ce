/**
 The mutation arbiter of one session as a transition system. A step is a stretch of
 code between two awaits; promise chains are indices into the list of submissions.
 */
module ArbiterModel {
  import opened Base
  import opened ReceiptTables

  datatype Lane = Normal | Control | Cancel

  datatype Request = Request(
    key: string,
    fingerprint: string,
    expectedRevision: int,
    acceptLatest: bool,
    checksIdentity: bool,
    lane: Lane,
    bindsCancel: bool,
    checksPrecondition: bool)

  /**
   Life of one submission. Queued: waits for the admission tail. Checking: its precondition is awaited.
   Refused and Accepted: the admission promise is settled. Fenced: waits for the admissions up to `fence`,
   the cancel tail read when `seen` submissions existed. Settled: the mutation promise is resolved.
   Closed: the finally handler ran.
   */
  datatype Phase =
    | Queued
    | Checking
    | Refused(reply: Reply)
    | Accepted(revision: nat)
    | Fenced(revision: nat, fence: nat, seen: nat)
    | Executing(revision: nat)
    | Settled(reply: Reply, admitted: Option<nat>)
    | Closed(reply: Reply, admitted: Option<nat>)
  {
    predicate Held() { Accepted? || Fenced? || Executing? }
    predicate Done() { Settled? || Closed? }
    predicate Begun() { Fenced? || Executing? || Done() }
  }

  /** `follows` is the normal tail at submission: one past the normal submission waited for, or 0. */
  datatype Task = Task(req: Request, follows: nat, phase: Phase)

  datatype Arbiter = Arbiter(
    session: string,
    domain: string,
    clock: nat,
    tasks: seq<Task>,
    turn: nat,
    normalTail: nat,
    cancelTail: nat,
    receipts: map<string, nat>,
    active: int,
    generations: set<nat>)

  const RECEIPT_LIMIT := 2048

  predicate Binds(req: Request) { req.lane.Normal? || req.bindsCancel }

  function RefOf(a: Arbiter, req: Request): Ref { Ref(a.session, a.domain, req.key) }

  // ---- submission ---------------------------------------------------------------------

  datatype Submission = Answered(reply: Reply) | Joined(task: nat) | Started(task: nat)

  /** `canonical` is false when the fingerprint has no canonical form; `fail` is what the caller's failure callback builds. */
  function Submit(a: Arbiter, req: Request, canonical: bool, fail: Reply): (Arbiter, Submission)
  {
    if !canonical then (a, Answered(fail))
    else if req.key in a.receipts && a.receipts[req.key] < |a.tasks| then
      var prior := a.receipts[req.key];
      if a.tasks[prior].req.fingerprint == req.fingerprint then (a, Joined(prior))
      else (a, Answered(InvalidReuse(a.clock)))
    else
      var n := |a.tasks|;
      (a.(tasks := a.tasks + [Task(req, if req.lane.Normal? then a.normalTail else 0, Queued)],
          normalTail := if req.lane.Normal? then n + 1 else a.normalTail,
          cancelTail := if req.lane.Cancel? then n + 1 else a.cancelTail,
          receipts := a.receipts[req.key := n]),
       Started(n))
  }

  // ---- admission ----------------------------------------------------------------------

  datatype Verdict = Holds | Fails | Throws

  /** What the environment decides during one admission stretch. */
  datatype Surroundings = Surroundings(lookupThrows: bool, identity: Verdict, admitThrows: bool, fail: Reply)

  /** Outcome of an awaited precondition. */
  datatype Gate = Proceed | Stop(reply: Reply) | Throw(reply: Reply)

  function SetPhase(a: Arbiter, i: nat, p: Phase): Arbiter
    requires i < |a.tasks|
  {
    a.(tasks := a.tasks[i := a.tasks[i].(phase := p)])
  }

  function Refuse(a: Arbiter, reply: Reply): Arbiter
    requires a.turn < |a.tasks|
  {
    SetPhase(a, a.turn, Refused(reply)).(turn := a.turn + 1)
  }

  /** An existing receipt answers the mutation; an unfinished one is fenced, never run again. */
  function DurableReply(clock: nat, lookup: Lookup, fail: Reply): Reply
    requires !lookup.Miss?
  {
    match lookup
    case Mismatch(_, _) => InvalidReuse(clock)
    case Replay(status, _, result) => if status.Terminal() && result.Some? then result.value else fail
  }

  function AnswerDurably(a: Arbiter, t: Tables, lookup: Lookup, fail: Reply): Arbiter
    requires a.turn < |a.tasks| && !lookup.Miss?
  {
    var clock := Max(a.clock, Revision(t, a.session));
    Refuse(a, DurableReply(clock, lookup, fail)).(clock := clock)
  }

  predicate StalePreemptiveCancel(a: Arbiter, req: Request) {
    && req.lane.Cancel?
    && IsSafeInteger(req.expectedRevision)
    && 0 <= req.expectedRevision < a.clock
    && exists g :: g in a.generations && g <= req.expectedRevision + 1
                   && forall h :: h in a.generations ==> g <= h
  }

  predicate AsksIdentity(a: Arbiter, req: Request) {
    a.clock != req.expectedRevision && !req.acceptLatest && req.checksIdentity
  }

  predicate Fresh(a: Arbiter, req: Request, env: Surroundings) {
    || a.clock == req.expectedRevision
    || StalePreemptiveCancel(a, req)
    || req.acceptLatest
    || (req.checksIdentity && env.identity.Holds?)
  }

  /** Durable admission: receipt, clock, active count and generation change in one step. */
  function Commit(a: Arbiter, t: Tables, env: Surroundings): (Arbiter, Tables)
    requires a.turn < |a.tasks|
  {
    var req := a.tasks[a.turn].req;
    if env.admitThrows then (Refuse(a, env.fail), t)
    else
      var (u, result) := AdmitMutation(t, RefOf(a, req), req.fingerprint);
      match result
      case AdmitThrows => (Refuse(a, env.fail), t)
      case Existing(lookup) => (AnswerDurably(a, u, lookup, env.fail), u)
      case AdmittedAt(revision) =>
        (SetPhase(a, a.turn, Accepted(revision)).(
           turn := a.turn + 1,
           clock := revision,
           active := a.active + 1,
           generations := if Binds(req) then a.generations + {revision} else a.generations),
         u)
  }

  predicate CanBegin(a: Arbiter) {
    a.turn < |a.tasks| && a.tasks[a.turn].phase.Queued?
  }

  function Begin(a: Arbiter, t: Tables, env: Surroundings): (Arbiter, Tables)
    requires CanBegin(a)
  {
    var req := a.tasks[a.turn].req;
    if env.lookupThrows then (Refuse(a, env.fail), t)
    else
      var lookup := LookupMutation(t, RefOf(a, req), req.fingerprint);
      if !lookup.Miss? then (AnswerDurably(a, t, lookup, env.fail), t)
      else if AsksIdentity(a, req) && env.identity.Throws? then (Refuse(a, env.fail), t)
      else if !Fresh(a, req, env) then (Refuse(a, Conflict(a.clock)), t)
      else if req.checksPrecondition then (SetPhase(a, a.turn, Checking), t)
      else Commit(a, t, env)
  }

  predicate CanResume(a: Arbiter) {
    a.turn < |a.tasks| && a.tasks[a.turn].phase.Checking?
  }

  function Resume(a: Arbiter, t: Tables, gate: Gate, env: Surroundings): (Arbiter, Tables)
    requires CanResume(a)
  {
    match gate
    case Proceed => Commit(a, t, env)
    case Stop(reply) => (Refuse(a, reply), t)
    case Throw(reply) => (Refuse(a, reply), t)
  }

  // ---- execution ----------------------------------------------------------------------

  /** A normal mutation looks at its admission only after the normal mutation before it resolved. */
  predicate CanConsume(a: Arbiter, i: nat) {
    && i < |a.tasks|
    && (a.tasks[i].phase.Refused? || a.tasks[i].phase.Accepted?)
    && (a.tasks[i].req.lane.Normal? && 0 < a.tasks[i].follows <= |a.tasks| ==>
          a.tasks[a.tasks[i].follows - 1].phase.Done())
  }

  function Consume(a: Arbiter, i: nat): Arbiter
    requires CanConsume(a, i)
  {
    match a.tasks[i].phase
    case Refused(reply) => SetPhase(a, i, Settled(reply, None))
    case Accepted(revision) =>
      if a.tasks[i].req.lane.Normal?
      then SetPhase(a, i, Fenced(revision, a.cancelTail, |a.tasks|))
      else SetPhase(a, i, Executing(revision))
    case _ => a
  }

  predicate CanLaunch(a: Arbiter, i: nat) {
    i < |a.tasks| && a.tasks[i].phase.Fenced? && a.tasks[i].phase.fence <= a.turn
  }

  function Launch(a: Arbiter, i: nat): Arbiter
    requires CanLaunch(a, i)
  {
    SetPhase(a, i, Executing(a.tasks[i].phase.revision))
  }

  predicate CanFinish(a: Arbiter, i: nat) {
    i < |a.tasks| && a.tasks[i].phase.Executing?
  }

  function Stored(reply: Reply): Option<Reply> {
    if reply.Undefined? then None else Some(reply)
  }

  /**
   `reply` is the caller-built answer; `storable` is false when the ledger cannot encode or write it,
   in which case the caller gets `fail` and the receipt stays unfinished.
   */
  function Finish(a: Arbiter, t: Tables, i: nat, failed: bool, reply: Reply, storable: bool, fail: Reply)
    : (Arbiter, Tables)
    requires CanFinish(a, i)
  {
    var task := a.tasks[i];
    var revision := task.phase.revision;
    var status := if failed then Failed else Completed;
    var u := if storable then CompleteMutation(t, RefOf(a, task.req), status, Stored(reply)) else None;
    var b := SetPhase(a, i, Settled(if u.Some? then reply else fail, Some(revision))).(
      active := a.active - 1,
      generations := if Binds(task.req) then a.generations - {revision} else a.generations);
    (b, if u.Some? then u.value else t)
  }

  // ---- closing and in-memory receipts ----------------------------------------------------

  predicate CanClose(a: Arbiter, i: nat) {
    i < |a.tasks| && a.tasks[i].phase.Settled?
  }

  /** A remembered, closed submission other than the one being closed. */
  predicate Evictable(tasks: seq<Task>, receipts: map<string, nat>, own: string, j: nat) {
    && j < |tasks|
    && tasks[j].phase.Closed?
    && tasks[j].req.key != own
    && tasks[j].req.key in receipts
    && receipts[tasks[j].req.key] == j
  }

  /** The receipt map is ordered by insertion, which is submission order. */
  function FirstEvictable(tasks: seq<Task>, receipts: map<string, nat>, own: string, from: nat): Option<nat>
    decreases |tasks| - from
  {
    if from >= |tasks| then None
    else if Evictable(tasks, receipts, own, from) then Some(from)
    else FirstEvictable(tasks, receipts, own, from + 1)
  }

  /** The finally handler: a refused submission is forgotten. */
  function Forgotten(a: Arbiter, i: nat): Arbiter
    requires CanClose(a, i)
  {
    var key := a.tasks[i].req.key;
    var admitted := a.tasks[i].phase.admitted;
    SetPhase(a, i, Closed(a.tasks[i].phase.reply, admitted)).(
      receipts := if admitted.None? && key in a.receipts && a.receipts[key] == i then a.receipts - {key} else a.receipts)
  }

  /** Over the limit, the first settled receipt other than the one just used goes. */
  function Bounded(a: Arbiter, own: string): Arbiter {
    var victim := if |a.receipts| > RECEIPT_LIMIT then FirstEvictable(a.tasks, a.receipts, own, 0) else None;
    if victim.Some? && victim.value < |a.tasks|
    then a.(receipts := a.receipts - {a.tasks[victim.value].req.key}) else a
  }

  function Close(a: Arbiter, i: nat): Arbiter
    requires CanClose(a, i)
  {
    Bounded(Forgotten(a, i), a.tasks[i].req.key)
  }

  // ---- clock --------------------------------------------------------------------------

  function Open(t: Tables, session: string, domain: string, clock: nat): (Arbiter, Tables) {
    var u := SeedSessionRevision(t, session, clock);
    (Arbiter(session, domain, Revision(u, session), [], 0, 0, 0, map[], 0, {}), u)
  }

  /** An out-of-range seed makes the ledger throw, which changes nothing. */
  function PublishAutonomous(a: Arbiter, t: Tables): (Arbiter, Tables) {
    if a.active != 0 || !IsSafeInteger(a.clock + 1) then (a, t)
    else
      var u := SeedSessionRevision(t, a.session, a.clock + 1);
      (a.(clock := Revision(u, a.session)), u)
  }

  function PublishDurable(a: Arbiter, t: Tables, revision: int): (Arbiter, Tables) {
    if !IsSafeInteger(revision) || revision <= a.clock then (a, t)
    else
      var u := SeedSessionRevision(t, a.session, revision);
      (a.(clock := Revision(u, a.session)), u)
  }

  // ---- one step -------------------------------------------------------------------------

  datatype Step =
    | DoSubmit(req: Request, canonical: bool, fail: Reply)
    | DoBegin(env: Surroundings)
    | DoResume(gate: Gate, env: Surroundings)
    | DoConsume(task: nat)
    | DoLaunch(task: nat)
    | DoFinish(task: nat, failed: bool, reply: Reply, storable: bool, fail: Reply)
    | DoClose(task: nat)
    | DoAutonomous
    | DoDurable(revision: int)

  predicate CanTake(a: Arbiter, step: Step) {
    match step
    case DoSubmit(_, _, _) => true
    case DoBegin(_) => CanBegin(a)
    case DoResume(_, _) => CanResume(a)
    case DoConsume(i) => CanConsume(a, i)
    case DoLaunch(i) => CanLaunch(a, i)
    case DoFinish(i, _, _, _, _) => CanFinish(a, i)
    case DoClose(i) => CanClose(a, i)
    case DoAutonomous => true
    case DoDurable(_) => true
  }

  function Take(a: Arbiter, t: Tables, step: Step): (Arbiter, Tables)
    requires CanTake(a, step)
  {
    match step
    case DoSubmit(req, canonical, fail) => (Submit(a, req, canonical, fail).0, t)
    case DoBegin(env) => Begin(a, t, env)
    case DoResume(gate, env) => Resume(a, t, gate, env)
    case DoConsume(i) => (Consume(a, i), t)
    case DoLaunch(i) => (Launch(a, i), t)
    case DoFinish(i, failed, reply, storable, fail) => Finish(a, t, i, failed, reply, storable, fail)
    case DoClose(i) => (Close(a, i), t)
    case DoAutonomous => PublishAutonomous(a, t)
    case DoDurable(revision) => PublishDurable(a, t, revision)
  }
}

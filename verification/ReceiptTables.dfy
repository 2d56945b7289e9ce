/**
 Mutation receipts and session revisions of the runtime ledger: the two tables that
 admission reads and writes. Every operation is one immediate transaction; a throw
 rolls the tables back.
 */
module ReceiptTables {
  import opened Base

  datatype Status = Admitted | Completed | Failed | InDoubt {
    predicate Terminal() { Completed? || Failed? }
  }

  /** What a mutation answers: the two fences of the arbiter, a caller-built body, or nothing. */
  datatype Reply = Conflict(revision: nat) | InvalidReuse(revision: nat) | Body(text: string) | Undefined

  datatype Ref = Ref(session: string, domain: string, key: string)

  datatype Receipt = Receipt(fingerprint: string, status: Status, acceptedRevision: nat, result: Option<Reply>)

  datatype SessionRow = SessionRow(revision: nat, nextEventSeq: nat, lowWatermark: nat)

  const FRESH_SESSION := SessionRow(0, 1, 1)

  datatype Tables = Tables(sessions: map<string, SessionRow>, receipts: map<Ref, Receipt>)

  datatype Lookup =
    | Miss
    | Replay(status: Status, acceptedRevision: nat, result: Option<Reply>)
    | Mismatch(status: Status, acceptedRevision: nat)

  /** What reopening hands out; it throws for a receipt that does not exist. */
  datatype ReopenResult =
    | Reopened(acceptedRevision: nat)
    | Kept(status: Status, acceptedRevision: nat, result: Option<Reply>)
    | ReopenThrows

  datatype AdmitResult = AdmittedAt(revision: nat) | Existing(lookup: Lookup) | AdmitThrows

  // ---- operations -------------------------------------------------------------------

  function RowOf(t: Tables, session: string): SessionRow {
    if session in t.sessions then t.sessions[session] else FRESH_SESSION
  }

  function Revision(t: Tables, session: string): nat {
    RowOf(t, session).revision
  }

  function EnsureSession(t: Tables, session: string): Tables {
    t.(sessions := t.sessions[session := RowOf(t, session)])
  }

  function ReadReceipt(r: Receipt, fingerprint: string): Lookup {
    if r.fingerprint != fingerprint then Mismatch(r.status, r.acceptedRevision)
    else Replay(r.status, r.acceptedRevision, r.result)
  }

  function LookupMutation(t: Tables, ref: Ref, fingerprint: string): Lookup {
    if ref in t.receipts then ReadReceipt(t.receipts[ref], fingerprint) else Miss
  }

  /** A receipt at the next session revision. */
  function Inserted(t: Tables, ref: Ref, fingerprint: string): Tables {
    var next := Revision(t, ref.session) + 1;
    Tables(t.sessions[ref.session := RowOf(t, ref.session).(revision := next)],
           t.receipts[ref := Receipt(fingerprint, Admitted, next, None)])
  }

  /** Inserts a receipt at the next session revision, unless the key already has one. */
  function AdmitMutation(t: Tables, ref: Ref, fingerprint: string): (Tables, AdmitResult) {
    if ref in t.receipts then
      (EnsureSession(t, ref.session), Existing(ReadReceipt(t.receipts[ref], fingerprint)))
    else
      var next := Revision(t, ref.session) + 1;
      if !IsSafeInteger(next) then (t, AdmitThrows)
      else (Inserted(t, ref, fingerprint), AdmittedAt(next))
  }

  /** None when the receipt is missing or already terminal with another outcome. */
  function CompleteMutation(t: Tables, ref: Ref, status: Status, result: Option<Reply>): Option<Tables> {
    if ref !in t.receipts then None
    else
      var r := t.receipts[ref];
      if r.status.Terminal() then
        if r.status == status && r.result == result then Some(t) else None
      else Some(t.(receipts := t.receipts[ref := r.(status := status, result := result)]))
  }

  function Doubted(r: Receipt): Receipt {
    if r.status.Admitted? then r.(status := InDoubt) else r
  }

  function RecoverInDoubt(t: Tables): Tables {
    t.(receipts := map ref | ref in t.receipts :: Doubted(t.receipts[ref]))
  }

  function ReopenMutation(t: Tables, ref: Ref): Tables {
    if ref in t.receipts && t.receipts[ref].status.InDoubt?
    then t.(receipts := t.receipts[ref := t.receipts[ref].(status := Admitted)])
    else t
  }

  function SeedSessionRevision(t: Tables, session: string, revision: nat): Tables {
    var row := RowOf(t, session);
    t.(sessions := t.sessions[session := if row.revision < revision then row.(revision := revision) else row])
  }

  // ---- invariant and growth ----------------------------------------------------------

  /** Accepted revisions are positive, bounded by the session revision and pairwise distinct within a session. */
  ghost predicate Valid(t: Tables) {
    && (forall s :: s in t.sessions ==> IsSafeInteger(t.sessions[s].revision))
    && (forall ref :: ref in t.receipts ==>
          ref.session in t.sessions
          && 1 <= t.receipts[ref].acceptedRevision <= t.sessions[ref.session].revision)
    && Distinct(t.receipts)
  }

  ghost predicate Distinct(m: map<Ref, Receipt>) {
    forall p, q :: p in m && q in m && p != q && p.session == q.session ==>
      m[p].acceptedRevision != m[q].acceptedRevision
  }

  /** What no ledger operation takes back. */
  ghost predicate Grows(t: Tables, u: Tables) {
    && (forall s :: s in t.sessions ==> s in u.sessions && t.sessions[s].revision <= u.sessions[s].revision)
    && (forall ref :: ref in t.receipts ==>
          ref in u.receipts
          && u.receipts[ref].fingerprint == t.receipts[ref].fingerprint
          && u.receipts[ref].acceptedRevision == t.receipts[ref].acceptedRevision
          && (t.receipts[ref].status.Terminal() ==> u.receipts[ref] == t.receipts[ref]))
  }

  datatype Op =
    | DoLookup(ref: Ref, fingerprint: string)
    | DoAdmit(ref: Ref, fingerprint: string)
    | DoComplete(ref: Ref, status: Status, result: Option<Reply>)
    | DoRecover
    | DoReopen(ref: Ref)
    | DoSeed(session: string, revision: nat)

  /** A call of the ledger interface; completion is offered terminal statuses only and seeds are safe integers. */
  predicate Callable(op: Op) {
    (op.DoComplete? ==> op.status.Terminal()) && (op.DoSeed? ==> IsSafeInteger(op.revision))
  }

  function Apply(t: Tables, op: Op): Tables {
    match op
    case DoLookup(_, _) => t
    case DoAdmit(ref, fp) => AdmitMutation(t, ref, fp).0
    case DoComplete(ref, status, result) =>
      (match CompleteMutation(t, ref, status, result) case Some(u) => u case None => t)
    case DoRecover => RecoverInDoubt(t)
    case DoReopen(ref) => ReopenMutation(t, ref)
    case DoSeed(session, revision) => SeedSessionRevision(t, session, revision)
  }

  function ApplyAll(t: Tables, ops: seq<Op>): Tables
    decreases |ops|
  {
    if ops == [] then t else ApplyAll(Apply(t, ops[0]), ops[1..])
  }

  lemma GrowsTrans(t: Tables, u: Tables, v: Tables)
    requires Grows(t, u) && Grows(u, v)
    ensures Grows(t, v)
  {
  }

  lemma EnsureKeeps(t: Tables, session: string)
    requires Valid(t)
    ensures Valid(EnsureSession(t, session)) && Grows(t, EnsureSession(t, session))
  {
  }

  lemma InsertGrows(t: Tables, ref: Ref, fingerprint: string)
    requires ref !in t.receipts
    ensures Grows(t, Inserted(t, ref, fingerprint))
  {
  }

  lemma InsertBounds(t: Tables, ref: Ref, fingerprint: string)
    requires Valid(t) && IsSafeInteger(Revision(t, ref.session) + 1)
    ensures var u := Inserted(t, ref, fingerprint);
            && (forall s :: s in u.sessions ==> IsSafeInteger(u.sessions[s].revision))
            && (forall r :: r in u.receipts ==>
                  r.session in u.sessions && 1 <= u.receipts[r].acceptedRevision <= u.sessions[r.session].revision)
  {
  }

  // The new revision is above every earlier one of the session.
  lemma InsertDistinct(t: Tables, ref: Ref, fingerprint: string)
    requires Valid(t) && ref !in t.receipts
    ensures Distinct(Inserted(t, ref, fingerprint).receipts)
  {
    AdmitKeepsDistinct(t.receipts, ref, Receipt(fingerprint, Admitted, Revision(t, ref.session) + 1, None));
  }

  lemma InsertKeeps(t: Tables, ref: Ref, fingerprint: string)
    requires Valid(t) && ref !in t.receipts && IsSafeInteger(Revision(t, ref.session) + 1)
    ensures Valid(Inserted(t, ref, fingerprint))
  {
    hide Inserted, Distinct, Revision;
    InsertBounds(t, ref, fingerprint);
    InsertDistinct(t, ref, fingerprint);
  }

  lemma AdmitIs(t: Tables, ref: Ref, fingerprint: string)
    ensures var u := AdmitMutation(t, ref, fingerprint).0;
            || u == t || u == EnsureSession(t, ref.session)
            || (ref !in t.receipts && IsSafeInteger(Revision(t, ref.session) + 1) && u == Inserted(t, ref, fingerprint))
    ensures Grows(t, t)
  {
  }

  lemma AdmitKeeps(t: Tables, ref: Ref, fingerprint: string)
    requires Valid(t)
    ensures Valid(AdmitMutation(t, ref, fingerprint).0) && Grows(t, AdmitMutation(t, ref, fingerprint).0)
  {
    hide *;
    AdmitIs(t, ref, fingerprint);
    EnsureKeeps(t, ref.session);
    if ref !in t.receipts && IsSafeInteger(Revision(t, ref.session) + 1) {
      InsertGrows(t, ref, fingerprint);
      InsertKeeps(t, ref, fingerprint);
    }
  }

  lemma AdmitKeepsDistinct(m: map<Ref, Receipt>, ref: Ref, r: Receipt)
    requires Distinct(m) && ref !in m
    requires forall p :: p in m && p.session == ref.session ==> m[p].acceptedRevision < r.acceptedRevision
    ensures Distinct(m[ref := r])
  {
  }

  /** Changing only statuses and results of non-terminal receipts keeps the invariant. */
  lemma RestatusKeeps(t: Tables, u: Tables)
    requires Valid(t) && t.sessions == u.sessions && u.receipts.Keys == t.receipts.Keys
    requires forall r :: r in t.receipts ==>
               u.receipts[r].fingerprint == t.receipts[r].fingerprint
               && u.receipts[r].acceptedRevision == t.receipts[r].acceptedRevision
               && (t.receipts[r].status.Terminal() ==> u.receipts[r] == t.receipts[r])
    ensures Valid(u) && Grows(t, u)
  {
    forall p, q | p in u.receipts && q in u.receipts && p != q && p.session == q.session
      ensures u.receipts[p].acceptedRevision != u.receipts[q].acceptedRevision
    {
      assert p in t.receipts.Keys && q in t.receipts.Keys;
    }
    assert forall r :: r in u.receipts ==> r in t.receipts.Keys;
    assert forall r :: r in t.receipts ==> r in u.receipts.Keys;
  }

  lemma SeedKeeps(t: Tables, session: string, revision: nat)
    requires Valid(t) && IsSafeInteger(revision)
    ensures Valid(SeedSessionRevision(t, session, revision)) && Grows(t, SeedSessionRevision(t, session, revision))
    ensures Revision(SeedSessionRevision(t, session, revision), session) == Max(Revision(t, session), revision)
  {
  }

  lemma CompleteKeeps(t: Tables, ref: Ref, status: Status, result: Option<Reply>)
    requires Valid(t) && status.Terminal() && CompleteMutation(t, ref, status, result).Some?
    ensures var u := CompleteMutation(t, ref, status, result).value; Valid(u) && Grows(t, u)
  {
    RestatusKeeps(t, CompleteMutation(t, ref, status, result).value);
  }

  lemma RecoverKeeps(t: Tables)
    requires Valid(t)
    ensures Valid(RecoverInDoubt(t)) && Grows(t, RecoverInDoubt(t))
  {
    RestatusKeeps(t, RecoverInDoubt(t));
  }

  lemma ReopenKeeps(t: Tables, ref: Ref)
    requires Valid(t)
    ensures Valid(ReopenMutation(t, ref)) && Grows(t, ReopenMutation(t, ref))
  {
    RestatusKeeps(t, ReopenMutation(t, ref));
  }

  lemma ApplyIs(t: Tables, op: Op)
    ensures match op
      case DoLookup(_, _) => Apply(t, op) == t
      case DoAdmit(ref, fp) => Apply(t, op) == AdmitMutation(t, ref, fp).0
      case DoComplete(ref, status, result) =>
        var done := CompleteMutation(t, ref, status, result);
        Apply(t, op) == if done.Some? then done.value else t
      case DoRecover => Apply(t, op) == RecoverInDoubt(t)
      case DoReopen(ref) => Apply(t, op) == ReopenMutation(t, ref)
      case DoSeed(session, revision) => Apply(t, op) == SeedSessionRevision(t, session, revision)
    ensures Callable(op) && op.DoComplete? ==> op.status.Terminal()
    ensures Callable(op) && op.DoSeed? ==> IsSafeInteger(op.revision)
    ensures Grows(t, t)
  {
  }

  lemma ApplyKeeps(t: Tables, op: Op)
    requires Valid(t) && Callable(op)
    ensures Valid(Apply(t, op)) && Grows(t, Apply(t, op))
  {
    hide *;
    ApplyIs(t, op);
    match op
    case DoLookup(_, _) =>
    case DoAdmit(ref, fp) => AdmitKeeps(t, ref, fp);
    case DoComplete(ref, status, result) =>
      if CompleteMutation(t, ref, status, result).Some? { CompleteKeeps(t, ref, status, result); }
    case DoRecover => RecoverKeeps(t);
    case DoReopen(ref) => ReopenKeeps(t, ref);
    case DoSeed(session, revision) => SeedKeeps(t, session, revision);
  }

  /**
   Terminal stability: over any sequence of ledger calls a receipt that is completed or failed keeps its
   status, result, fingerprint and accepted revision, and distinctness of accepted revisions survives.
   */
  lemma {:induction false} TerminalReceiptsNeverChange(t: Tables, ops: seq<Op>)
    requires Valid(t) && forall op :: op in ops ==> Callable(op)
    ensures Valid(ApplyAll(t, ops)) && Grows(t, ApplyAll(t, ops))
    ensures forall ref :: ref in t.receipts && t.receipts[ref].status.Terminal() ==>
              ref in ApplyAll(t, ops).receipts && ApplyAll(t, ops).receipts[ref] == t.receipts[ref]
    decreases |ops|
  {
    if ops != [] {
      ApplyKeeps(t, ops[0]);
      TerminalReceiptsNeverChange(Apply(t, ops[0]), ops[1..]);
      GrowsTrans(t, Apply(t, ops[0]), ApplyAll(t, ops));
    }
  }

  // ---- what recovery, reopening and completion leave -----------------------------------------


  /**
   After recovery no receipt is admitted: those that were are in doubt, with fingerprint, revision and result as they
   were, and nothing else has changed.
   */
  lemma RecoveryIsExact(t: Tables)
    ensures var u := RecoverInDoubt(t);
            && u.sessions == t.sessions && u.receipts.Keys == t.receipts.Keys
            && (forall ref :: ref in t.receipts ==>
                  && u.receipts[ref].status != Admitted
                  && (u.receipts[ref].status == InDoubt <==> t.receipts[ref].status == Admitted || t.receipts[ref].status == InDoubt)
                  && u.receipts[ref].fingerprint == t.receipts[ref].fingerprint
                  && u.receipts[ref].acceptedRevision == t.receipts[ref].acceptedRevision
                  && u.receipts[ref].result == t.receipts[ref].result
                  && (t.receipts[ref].status != Admitted ==> u.receipts[ref] == t.receipts[ref]))
  {
  }

  /** Reopening makes a receipt in doubt admitted again, with fingerprint, revision and result kept, and changes no other. */
  lemma ReopeningIsExact(t: Tables, ref: Ref)
    ensures var u := ReopenMutation(t, ref);
            && u.sessions == t.sessions && u.receipts.Keys == t.receipts.Keys
            && (ref in t.receipts && t.receipts[ref].status == InDoubt ==>
                  var r := t.receipts[ref]; u.receipts[ref] == Receipt(r.fingerprint, Admitted, r.acceptedRevision, r.result))
            && (forall other :: other in t.receipts && (other != ref || t.receipts[other].status != InDoubt) ==>
                  u.receipts[other] == t.receipts[other])
  {
    assert ref in t.receipts ==> t.receipts.Keys + {ref} == t.receipts.Keys;
  }

  /** An interrupted mutation can be carried on after a restart: recovered, then reopened, its receipt is as it was admitted. */
  lemma RecoveredThenReopened(t: Tables, ref: Ref)
    requires ref in t.receipts && t.receipts[ref].status == Admitted
    ensures ReopenMutation(RecoverInDoubt(t), ref).receipts[ref] == t.receipts[ref]
    ensures forall other :: other in t.receipts && other != ref ==>
              ReopenMutation(RecoverInDoubt(t), ref).receipts[other].status != Admitted
  {
    RecoveryIsExact(t);
    ReopeningIsExact(RecoverInDoubt(t), ref);
  }

  /**
   Completion fails exactly for a missing receipt and for one that ended with another outcome. Ending it again with the same
   outcome changes nothing; ending it for the first time sets status and result and changes nothing else.
   */
  lemma CompletionIsExact(t: Tables, ref: Ref, status: Status, result: Option<Reply>)
    requires status == Completed || status == Failed
    ensures var done := CompleteMutation(t, ref, status, result);
            var ended := ref in t.receipts && (t.receipts[ref].status == Completed || t.receipts[ref].status == Failed);
            && (done.None? <==> ref !in t.receipts || (ended && (t.receipts[ref].status != status || t.receipts[ref].result != result)))
            && (done.Some? ==> ref in done.value.receipts && done.value.sessions == t.sessions)
            && (done.Some? && ended ==> done.value == t)
            && (done.Some? ==>
                  var r := t.receipts[ref]; done.value.receipts[ref] == Receipt(r.fingerprint, status, r.acceptedRevision, result))
            && (done.Some? ==> forall other :: other != ref ==>
                  (other in done.value.receipts <==> other in t.receipts)
                  && (other in t.receipts ==> done.value.receipts[other] == t.receipts[other]))
  {
  }

  /**
   What was recorded is read back. An admission goes through exactly for a key without a receipt whose session has room
   for one more revision, and takes that revision; from then on a lookup with its fingerprint answers the receipt's
   status, revision and result, one with another fingerprint only status and revision, and no other key is affected.
   */
  lemma RecordedIsRead(t: Tables, ref: Ref, fingerprint: string, asked: string)
    requires Valid(t)
    ensures var (u, answer) := AdmitMutation(t, ref, fingerprint);
            && (answer.AdmittedAt? <==> LookupMutation(t, ref, fingerprint).Miss? && Revision(t, ref.session) < 9007199254740991)
            && (answer == AdmitThrows <==> LookupMutation(t, ref, fingerprint).Miss? && Revision(t, ref.session) >= 9007199254740991)
            && (answer.AdmittedAt? ==>
                  && answer.revision == Revision(t, ref.session) + 1 == Revision(u, ref.session)
                  && LookupMutation(u, ref, asked) ==
                       (if asked == fingerprint then Replay(Admitted, answer.revision, None) else Mismatch(Admitted, answer.revision)))
            && (answer.Existing? ==> answer.lookup == LookupMutation(t, ref, fingerprint))
            && (forall other, fp :: other != ref || !answer.AdmittedAt? ==> LookupMutation(u, other, fp) == LookupMutation(t, other, fp))
            && (forall s :: s != ref.session || !answer.AdmittedAt? ==> Revision(u, s) == Revision(t, s))
    ensures LookupMutation(t, ref, asked).Miss? <==> ref !in t.receipts
    ensures ref in t.receipts ==>
              var r := t.receipts[ref];
              LookupMutation(t, ref, asked) ==
                if asked == r.fingerprint then Replay(r.status, r.acceptedRevision, r.result) else Mismatch(r.status, r.acceptedRevision)
  {
  }
}

/**
 The runtime ledger as an object: its tables are fields, its transactions are methods
 that either finish or put every field back.
 */
module RuntimeLedger {
  import opened Base
  import RT = ReceiptTables
  import EW = EventWindow
  import UT = UsageTotals

  class SqliteRuntimeLedger {
    const maxEventsPerSession: nat
    var sessions: map<string, RT.SessionRow>
    var receipts: map<RT.Ref, RT.Receipt>
    var events: map<EW.EventKey, EW.Event>
    var usageEvents: map<UT.EventId, UT.UsageEvent>
    var sessionTotals: map<string, UT.Counters>
    var mainTotals: map<UT.MainKey, UT.Counters>
    var agentTotals: map<UT.AgentKey, UT.Counters>
    var routeTotals: map<UT.RouteKey, UT.Counters>

    ghost function Tables(): RT.Tables
      reads this`sessions, this`receipts
    {
      RT.Tables(sessions, receipts)
    }

    ghost function Window(): EW.Window
      reads this`sessions, this`events
    {
      EW.Window(sessions, events)
    }

    ghost function Usage(): UT.Usage
      reads this`usageEvents, this`sessionTotals, this`mainTotals, this`agentTotals, this`routeTotals
    {
      UT.Usage(usageEvents, sessionTotals, mainTotals, agentTotals, routeTotals)
    }

    constructor (maxEventsPerSession: nat)
      ensures this.maxEventsPerSession == maxEventsPerSession
      ensures RT.Valid(Tables()) && EW.Describes(Window(), map[]) && UT.Conserved(Usage())
    {
      this.maxEventsPerSession := maxEventsPerSession;
      sessions, receipts, events := map[], map[], map[];
      usageEvents, sessionTotals, mainTotals, agentTotals, routeTotals := map[], map[], map[], map[], map[];
      new;
      UT.EmptyIsConserved();
    }

    method EnsureSession(session: string)
      modifies this`sessions
      ensures Tables() == RT.EnsureSession(old(Tables()), session)
    {
      if session !in sessions {
        sessions := sessions[session := RT.FRESH_SESSION];
      }
      assert sessions == old(sessions)[session := RT.RowOf(old(Tables()), session)];
    }

    // ---- receipts ----------------------------------------------------------------------

    method LookupMutation(ref: RT.Ref, fingerprint: string) returns (r: RT.Lookup)
      ensures r == RT.LookupMutation(Tables(), ref, fingerprint)
    {
      if ref !in receipts { return RT.Miss; }
      r := RT.ReadReceipt(receipts[ref], fingerprint);
    }

    method AdmitMutation(ref: RT.Ref, fingerprint: string) returns (r: RT.AdmitResult)
      modifies this`sessions, this`receipts
      ensures (Tables(), r) == RT.AdmitMutation(old(Tables()), ref, fingerprint)
    {
      var saved := sessions;
      EnsureSession(ref.session);
      if ref in receipts {
        return RT.Existing(RT.ReadReceipt(receipts[ref], fingerprint));
      }
      var revision := sessions[ref.session].revision + 1;
      sessions := sessions[ref.session := sessions[ref.session].(revision := revision)];
      if !IsSafeInteger(revision) {
        sessions := saved;
        return RT.AdmitThrows;
      }
      assert sessions == saved[ref.session := RT.RowOf(old(Tables()), ref.session).(revision := revision)];
      receipts := receipts[ref := RT.Receipt(fingerprint, RT.Admitted, revision, None)];
      r := RT.AdmittedAt(revision);
    }

    method CompleteMutation(ref: RT.Ref, status: RT.Status, result: Option<RT.Reply>) returns (ok: bool)
      modifies this`receipts
      ensures ok == RT.CompleteMutation(old(Tables()), ref, status, result).Some?
      ensures Tables() == if ok then RT.CompleteMutation(old(Tables()), ref, status, result).value else old(Tables())
    {
      if ref !in receipts { return false; }
      var existing := receipts[ref];
      if existing.status.Completed? || existing.status.Failed? {
        return existing.status == status && existing.result == result;
      }
      receipts := receipts[ref := existing.(status := status, result := result)];
      ok := true;
    }

    /** Every admitted receipt becomes in doubt; returns how many there were. */
    method RecoverInDoubt() returns (changed: nat)
      modifies this`receipts
      ensures Tables() == RT.RecoverInDoubt(old(Tables()))
      ensures receipts.Keys == old(receipts).Keys
      ensures forall ref :: ref in receipts ==>
                receipts[ref] == if old(receipts)[ref].status == RT.Admitted
                                 then old(receipts)[ref].(status := RT.InDoubt) else old(receipts)[ref]
      ensures changed == |set ref | ref in old(receipts) && old(receipts)[ref].status == RT.Admitted|
    {
      var admitted := set ref | ref in receipts && receipts[ref].status.Admitted?;
      receipts := map ref | ref in receipts :: RT.Doubted(receipts[ref]);
      assert admitted == set ref | ref in old(receipts) && old(receipts)[ref].status == RT.Admitted;
      changed := |admitted|;
    }

    /** Only a receipt in doubt is reopened; any other is handed out as it is. */
    method ReopenMutation(ref: RT.Ref) returns (r: RT.ReopenResult)
      modifies this`receipts
      ensures Tables() == RT.ReopenMutation(old(Tables()), ref)
      ensures r == if ref !in old(receipts) then RT.ReopenThrows
                   else if old(receipts)[ref].status == RT.InDoubt then RT.Reopened(old(receipts)[ref].acceptedRevision)
                   else RT.Kept(old(receipts)[ref].status, old(receipts)[ref].acceptedRevision, old(receipts)[ref].result)
      ensures receipts == if ref in old(receipts) && old(receipts)[ref].status == RT.InDoubt
                          then old(receipts)[ref := old(receipts)[ref].(status := RT.Admitted)] else old(receipts)
    {
      if ref !in receipts { return RT.ReopenThrows; }
      var existing := receipts[ref];
      if existing.status.InDoubt? {
        receipts := receipts[ref := existing.(status := RT.Admitted)];
        assert receipts[ref] != old(receipts)[ref];
        return RT.Reopened(existing.acceptedRevision);
      }
      r := RT.Kept(existing.status, existing.acceptedRevision, existing.result);
    }

    /** None when the revision is not a safe integer; the ledger is then untouched. */
    method SeedSessionRevision(session: string, revision: nat) returns (r: Option<nat>)
      modifies this`sessions
      ensures r.Some? == IsSafeInteger(revision)
      ensures Tables() == if r.Some? then RT.SeedSessionRevision(old(Tables()), session, revision) else old(Tables())
      ensures r.Some? ==> r.value == RT.Revision(Tables(), session)
    {
      if !IsSafeInteger(revision) { return None; }
      EnsureSession(session);
      if sessions[session].revision < revision {
        sessions := sessions[session := sessions[session].(revision := revision)];
      }
      r := Some(sessions[session].revision);
    }

    // ---- events ---------------------------------------------------------------------------

    method AppendRuntimeEvent(session: string, event: EW.Event) returns (r: Option<nat>)
      modifies this`sessions, this`events
      ensures var a := EW.Append(old(Window()), session, event, maxEventsPerSession);
              && Window() == (if a.Some? then a.value.window else old(Window()))
              && r == (if a.Some? then Some(a.value.seqNo) else None)
    {
      var saved := sessions;
      EnsureSession(session);
      ghost var row := EW.SessionOf(old(Window()), session);
      assert sessions == saved[session := row];
      var n := sessions[session].nextEventSeq;
      var previousLow := sessions[session].lowWatermark;
      if EW.EventKey(session, n) in events || !IsSafeInteger(n + 1) {
        sessions := saved;
        return None;
      }
      events := events[EW.EventKey(session, n) := event];
      var low: nat := Max(previousLow, n + 1 - maxEventsPerSession);
      sessions := sessions[session := sessions[session].(nextEventSeq := n + 1, lowWatermark := low)];
      assert sessions == saved[session := row.(nextEventSeq := n + 1, lowWatermark := low)];
      events := map k | k in events && !(k.session == session && k.seqNo < low) :: events[k];
      assert events == EW.DropBelow(old(events)[EW.EventKey(session, n) := event], session, low);
      r := Some(n);
    }

    method ReplayRuntimeEvents(session: string, after: nat) returns (r: EW.Replayed)
      ensures r == EW.Replay(Window(), session, after)
    {
      if session !in sessions {
        return if after == 0 then EW.Rows(1, 1, []) else EW.Expired(1, 1);
      }
      var low: int, next: int := sessions[session].lowWatermark, sessions[session].nextEventSeq;
      if after < low - 1 || after > next - 1 { return EW.Expired(low, next); }
      r := EW.Rows(low, next, EW.Select(events, session, after, next));
    }

    // ---- usage -----------------------------------------------------------------------------

    /** The sessions row is created even for a duplicate; an overflow rolls it back. */
    method RecordUsage(id: UT.EventId, e: UT.UsageEvent) returns (r: UT.Outcome)
      modifies this`sessions, this`usageEvents, this`sessionTotals, this`mainTotals, this`agentTotals, this`routeTotals
      ensures (Usage(), r) == UT.RecordUsage(old(Usage()), id, e)
      ensures Tables() == if r.Overflow? then old(Tables()) else RT.EnsureSession(old(Tables()), id.session)
    {
      var saved := sessions;
      EnsureSession(id.session);
      if id in usageEvents {
        return if usageEvents[id] == e then UT.Duplicate else UT.ScopeMismatch;
      }
      var routeKey := UT.RouteKey(id.session, e.route);
      var fits := UT.CanAccumulate(sessionTotals, id.session, e.counters);
      if fits && e.main.Some? {
        fits := UT.CanAccumulate(mainTotals, UT.MainKey(id.session, e.main.value), e.counters);
      }
      if fits && e.agent.Some? {
        fits := UT.CanAccumulate(agentTotals, UT.AgentKey(id.session, e.agent.value), e.counters);
      }
      if fits {
        fits := UT.CanAccumulate(routeTotals, routeKey, e.counters);
      }
      if !fits {
        sessions := saved;
        return UT.Overflow;
      }
      usageEvents := usageEvents[id := e];
      sessionTotals := UT.Upsert(sessionTotals, id.session, e.counters);
      if e.main.Some? {
        mainTotals := UT.Upsert(mainTotals, UT.MainKey(id.session, e.main.value), e.counters);
      }
      if e.agent.Some? {
        agentTotals := UT.Upsert(agentTotals, UT.AgentKey(id.session, e.agent.value), e.counters);
      }
      routeTotals := UT.Upsert(routeTotals, routeKey, e.counters);
      r := UT.Recorded;
    }
  }
}

/**
 What the registry's other records mean: leases, the quarantine of teardowns that timed out,
 and the labels in the cleanup inventory.
 */
module RegistryHealth {
  import opened Base
  import opened RegistryModel
  import opened RegistryInvariant
  import opened RegistrySteps
  import opened RegistryTheorems

  // ---- leases --------------------------------------------------------------------------

  // Using a session leases it for the whole time to live and makes it the newest in order.
  lemma UsedSessionsAreProtected(r: Registry, session: string, m: Moment, later: Moment)
    requires Reachable(r) && Get(r.engines, session).Some?
    ensures var r1 := Use(r, session, m);
            var a := r1.engines[|r1.engines| - 1];
            && |r1.engines| == |r.engines|
            && a.session == session && a.engine == Get(r.engines, session).value.engine && a.lastAccess == m.now
            && a.lease == m.now + r.ttl && a.project == Get(r.engines, session).value.project
            && (later.now < m.now + r.ttl ==> !Idle(a, later))
            && (forall b :: b in r1.engines && b != a ==> b in r.engines && b.touched < a.touched)
  {
    hide *;
    ReachableInv(r);
    GetFinds(r.engines, session);
    var k: nat :| k < |r.engines| && r.engines[k] == Get(r.engines, session).value;
    Inside(r);
    WithoutAt(r.engines, k);
    UseIs(r, session, m);
    TouchIs(r, k, m);
    NewestLast(r.engines, k, r.engines[k].(lastAccess := m.now, lease := m.now + r.ttl, touched := r.touches), r.touches);
    NotIdleYet(Use(r, session, m).engines[|r.engines| - 1], later);
  }

  lemma UseIs(r: Registry, session: string, m: Moment)
    requires Get(r.engines, session).Some?
    ensures Use(r, session, m) == Touch(r, Get(r.engines, session).value, m)
  {
  }

  lemma NewestLast(s: seq<Attached>, k: nat, a: Attached, touches: nat)
    requires k < |s| && Fresh(s, touches) && a.touched == touches
    ensures var t := s[..k] + s[k + 1..] + [a];
            && |t| == |s| && t[|t| - 1] == a
            && (forall b :: b in t && b != a ==> b in s && b.touched < a.touched)
  {
    var rest := s[..k] + s[k + 1..];
    forall b | b in rest ensures b in s && b.touched < touches {
      var i :| 0 <= i < |rest| && rest[i] == b;
      assert s[if i < k then i else i + 1] == b;
    }
  }

  lemma NotIdleYet(a: Attached, later: Moment)
    ensures later.now < a.lease ==> !Idle(a, later)
  {
  }

  // Releasing a busy session only ends its lease; releasing an idle one begins its teardown.
  lemma ReleaseEndsLease(r: Registry, session: string, m: Moment)
    requires Reachable(r) && Get(r.engines, session).Some?
    ensures var a := Get(r.engines, session).value;
            var (r1, released) := Release(r, session, m);
            && released == (a.engine !in m.busy)
            && (released ==> !Holds(r1.engines, a.engine) && r1.begun == r.begun + [a.engine])
            && (!released ==> |r1.engines| == |r.engines| && r1.begun == r.begun
                              && forall i :: 0 <= i < |r.engines| ==>
                                   r1.engines[i] == if r.engines[i] == a then a.(lease := 0) else r.engines[i])
  {
    hide *;
    ReachableInv(r);
    Inside(r);
    GetFinds(r.engines, session);
    var a := Get(r.engines, session).value;
    ReleaseTurn(r, session, m);
    UnleasedKeeps(r, a.engine);
    UnleaseOnly(r.engines, a);
    var k: nat :| k < |r.engines| && r.engines[k] == a;
    if a.engine !in m.busy { IdleReleaseEnds(r.(engines := Unlease(r.engines, a.engine)), k, session, m); }
  }

  lemma ReleaseTurn(r: Registry, session: string, m: Moment)
    requires Get(r.engines, session).Some?
    ensures var a := Get(r.engines, session).value;
            var r0 := r.(engines := Unlease(r.engines, a.engine));
            Release(r, session, m) ==
              if a.engine in m.busy then (r0, false) else (ScheduleTeardown(r0, session, a.engine, false, m), true)
  {
  }

  lemma UnleaseOnly(s: seq<Attached>, a: Attached)
    requires Tidy(s) && a in s
    ensures |Unlease(s, a.engine)| == |s|
    ensures forall i :: 0 <= i < |s| ==> Unlease(s, a.engine)[i] == if s[i] == a then a.(lease := 0) else s[i]
  {
    UnleaseKeeps(s, a.engine);
    forall i | 0 <= i < |s| && s[i].engine == a.engine ensures s[i] == a { SameEngine(s, s[i], a); }
  }

  lemma IdleReleaseEnds(r: Registry, k: nat, session: string, m: Moment)
    requires Inv(r) && k < |r.engines| && r.engines[k].session == session && r.engines[k].engine !in m.busy
    ensures var r1 := ScheduleTeardown(r, session, r.engines[k].engine, false, m);
            !Holds(r1.engines, r.engines[k].engine) && r1.begun == r.begun + [r.engines[k].engine]
  {
    hide *;
    Inside(r);
    TeardownRemoves(r, k, false, m);
    CutDrops(r.engines, k);
  }

  lemma CutDrops(s: seq<Attached>, k: nat)
    requires Tidy(s) && k < |s|
    ensures !Holds(s[..k] + s[k + 1..], s[k].engine)
  {
    CutDiffers(s, k);
  }

  // ---- quarantine ----------------------------------------------------------------------

  // The quarantine stands, and every pending creation stays with its fingerprint.
  ghost predicate KeepsRecords(r: Registry, r1: Registry) {
    && r1.orphaned == r.orphaned
    && (forall s :: s in r.creations ==> s in r1.creations && r1.creations[s].fingerprint == r.creations[s].fingerprint)
  }

  lemma SameRecords(r: Registry, r1: Registry)
    requires r1.orphaned == r.orphaned && r1.creations == r.creations
    ensures KeepsRecords(r, r1)
  {
  }

  lemma RecordsTrans(r: Registry, r1: Registry, r2: Registry)
    requires KeepsRecords(r, r1) && KeepsRecords(r1, r2)
    ensures KeepsRecords(r, r2)
  {
  }

  lemma {:induction false} EvictKeepsRecords(r: Registry, queue: seq<Attached>, rule: Rule, m: Moment)
    ensures EvictFrom(r, queue, rule, m).orphaned == r.orphaned
    ensures EvictFrom(r, queue, rule, m).creations == r.creations
    decreases |queue|
  {
    hide *;
    Turn(r, queue, rule, m);
    if queue != [] && !Enough(r, rule) {
      if Evictable(queue[0], r.ttl, rule, m) {
        TeardownRecords(r, queue[0].session, queue[0].engine, false, m);
        EvictKeepsRecords(ScheduleTeardown(r, queue[0].session, queue[0].engine, false, m), queue[1..], rule, m);
      } else {
        EvictKeepsRecords(r, queue[1..], rule, m);
      }
    }
  }

  lemma TeardownRecords(r: Registry, session: string, engine: nat, force: bool, m: Moment)
    ensures ScheduleTeardown(r, session, engine, force, m).orphaned == r.orphaned
    ensures ScheduleTeardown(r, session, engine, force, m).creations == r.creations
  {
  }

  lemma {:induction false} DisposeKeepsRecords(r: Registry, queue: seq<Attached>, m: Moment)
    ensures TeardownAll(r, queue, m).orphaned == r.orphaned
    ensures TeardownAll(r, queue, m).creations == r.creations
    decreases |queue|
  {
    if queue != [] { DisposeKeepsRecords(ScheduleTeardown(r, queue[0].session, queue[0].engine, true, m), queue[1..], m); }
  }

  lemma AdmissionRecords(r: Registry, m: Moment)
    ensures Admission(r, m).0.orphaned == r.orphaned && Admission(r, m).0.creations == r.creations
  {
    EvictKeepsRecords(r, r.engines, TotalCapacity, m);
  }

  lemma ClearedRecords(r: Registry, session: string, m: Moment)
    ensures Cleared(r, session, m).orphaned == r.orphaned && Cleared(r, session, m).creations == r.creations
  {
    AdmissionRecords(r, m);
  }

  // What an attachment may leave the registry as.
  lemma AttachLeaves(r: Registry, session: string, project: Option<string>, m: Moment)
    ensures var r1, after := Cleared(r, session, m), Attach(r, session, project, m).0;
            after == r || after == r1 || after == Evict(Seated(r1, session, project, m), IdleBound(session), m)
  {
  }

  lemma AttachKeepsRecords(r: Registry, session: string, project: Option<string>, m: Moment)
    ensures KeepsRecords(r, Attach(r, session, project, m).0)
    ensures Attach(r, session, project, m).0.creations == r.creations
  {
    hide *;
    AttachLeaves(r, session, project, m);
    ClearedRecords(r, session, m);
    var r1 := Cleared(r, session, m);
    SeatedRecords(r1, session, project, m);
    var seated := Seated(r1, session, project, m);
    EvictRecords(seated, IdleBound(session), m);
    SameRecords(r, Attach(r, session, project, m).0);
  }

  lemma SeatedRecords(r: Registry, session: string, project: Option<string>, m: Moment)
    ensures Seated(r, session, project, m).orphaned == r.orphaned && Seated(r, session, project, m).creations == r.creations
  {
  }

  lemma EvictRecords(r: Registry, rule: Rule, m: Moment)
    ensures Evict(r, rule, m).orphaned == r.orphaned && Evict(r, rule, m).creations == r.creations
  {
    EvictKeepsRecords(r, r.engines, rule, m);
  }

  lemma CreateKeepsRecords(r: Registry, session: string, fingerprint: string, m: Moment)
    ensures KeepsRecords(r, Create(r, session, fingerprint, m).0)
  {
    CreateIs(r, session, fingerprint, m);
    AdmissionRecords(r, m);
  }

  lemma EndPhaseRecords(r: Registry, session: string, phase: Phase)
    ensures KeepsRecords(r, EndPhase(r, session, phase))
    ensures KeepsRecords(r, EndPhase(r.(reservations := r.reservations - {session}), session, phase))
  {
  }

  lemma DiscardRecords(r: Registry, session: string, disposable: bool)
    ensures KeepsRecords(r, Discard(r, session, disposable))
  {
  }

  lemma BuiltKeepsRecords(r: Registry, session: string, path: string, disposable: bool, m: Moment)
    ensures KeepsRecords(r, Built(r, session, path, disposable, m).0)
  {
    hide *;
    BuiltTurn(r, session, path, disposable, m);
    var r1 := EndPhase(r.(reservations := r.reservations - {session}), session, Ended);
    var r2 := Attach(r1, session, Some(path), m).0;
    DiscardRecords(r, session, disposable);
    EndPhaseRecords(r, session, Ended);
    AttachKeepsRecords(r1, session, Some(path), m);
    DiscardRecords(r2, session, disposable);
    RecordsTrans(r, r1, r2);
    RecordsTrans(r, r2, Discard(r2, session, disposable));
  }

  lemma OtherRecords(r: Registry, session: string, engine: nat, clean: bool, m: Moment)
    ensures KeepsRecords(r, ScheduleTeardown(r, session, engine, true, m))
    ensures KeepsRecords(r, Use(r, session, m))
    ensures KeepsRecords(r, Release(r, session, m).0)
    ensures KeepsRecords(r, Settled(r, engine, clean))
  {
  }

  lemma DisposeRecords(r: Registry, m: Moment)
    ensures KeepsRecords(r, TeardownAll(r.(disposed := true), r.engines, m))
  {
    DisposeKeepsRecords(r.(disposed := true), r.engines, m);
  }

  // Only a timeout, the end of a quarantined teardown and the end of a creation or of disposal change them.
  lemma StepRecords(r: Registry, e: Event, m: Moment)
    requires CanHappen(r, e)
    requires !e.TeardownTimedOut? && !e.OrphanFinished? && !e.CreationEnded? && !e.DisposeFinished?
    ensures KeepsRecords(r, Step(r, e, m))
  {
    hide *;
    StepIs(r, e, m);
    match e
    case AttachCalled(session, project) => AttachKeepsRecords(r, session, project, m);
    case DetachCalled(session, engine) => OtherRecords(r, session, engine, true, m);
    case CreateCalled(session, fingerprint) => CreateKeepsRecords(r, session, fingerprint, m);
    case FactoryResolved(session, path, disposable) => BuiltKeepsRecords(r, session, path, disposable, m);
    case FactoryRejected(session) => EndPhaseRecords(r, session, Ended);
    case Used(session) => OtherRecords(r, session, 0, true, m);
    case ReleaseCalled(session) => OtherRecords(r, session, 0, true, m);
    case SweepFired => EvictRecords(r, IdleSweep, m); SameRecords(r, Step(r, e, m));
    case TeardownSettled(engine, clean) => OtherRecords(r, "", engine, clean, m);
    case DisposeCalled => DisposeRecords(r, m);
  }

  // A timed-out teardown joins the quarantine and only its own end lifts it.
  lemma QuarantineStep(r: Registry, e: Event, m: Moment, engine: nat)
    requires CanHappen(r, e)
    ensures engine in Step(r, e, m).orphaned <==>
            (engine in r.orphaned && e != OrphanFinished(engine)) || e == TeardownTimedOut(engine)
  {
    if e.TeardownTimedOut? || e.OrphanFinished? || e.CreationEnded? || e.DisposeFinished? {
      EndingOrphans(r, e, m);
    } else {
      StepRecords(r, e, m);
    }
  }

  lemma EndingOrphans(r: Registry, e: Event, m: Moment)
    requires CanHappen(r, e)
    ensures e.TeardownTimedOut? ==> Step(r, e, m).orphaned == r.orphaned + {e.engine}
    ensures e.OrphanFinished? ==> Step(r, e, m).orphaned == r.orphaned - {e.engine}
    ensures e.CreationEnded? || e.DisposeFinished? ==> Step(r, e, m).orphaned == r.orphaned
    ensures e.TeardownTimedOut? || e.OrphanFinished? ==> Step(r, e, m).creations == r.creations
    ensures e.CreationEnded? ==> Step(r, e, m).creations == r.creations - {e.session}
  {
    hide *;
    StepIs(r, e, m);
    EndingIs(r, e);
  }

  lemma EndingIs(r: Registry, e: Event)
    ensures e.TeardownTimedOut? ==>
              TimedOut(r, e.engine).orphaned == r.orphaned + {e.engine} && TimedOut(r, e.engine).creations == r.creations
    ensures e.OrphanFinished? ==>
              OrphanSettled(r, e.engine).orphaned == r.orphaned - {e.engine} && OrphanSettled(r, e.engine).creations == r.creations
    ensures e.CreationEnded? && e.session in r.creations ==>
              Finally(r, e.session).orphaned == r.orphaned && Finally(r, e.session).creations == r.creations - {e.session}
    ensures DisposeEnd(r).orphaned == r.orphaned
  {
  }

  predicate Mentions(run: seq<(Event, Moment)>, e: Event) {
    exists i :: 0 <= i < |run| && run[i].0 == e
  }

  // From the moment a teardown times out until it ends after all, no session that is not
  // attached is admitted: it is refused as quarantined, and nothing is evicted for it.
  lemma {:induction false} NoAdmissionWhileQuarantined(r: Registry, run: seq<(Event, Moment)>, engine: nat, m: Moment)
    requires Legal(r, run) && engine in r.orphaned && !Mentions(run, OrphanFinished(engine))
    ensures Admission(After(r, run), m) == (After(r, run), Some(Quarantined))
    decreases |run|
  {
    if run != [] {
      QuarantineStep(r, run[0].0, run[0].1, engine);
      assert run[0].0 != OrphanFinished(engine);
      assert forall i :: 0 <= i < |run[1..]| ==> run[1..][i] == run[i + 1];
      NoAdmissionWhileQuarantined(Step(r, run[0].0, run[0].1), run[1..], engine, m);
    }
  }

  // ---- creations -----------------------------------------------------------------------

  predicate Registered(r: Registry, session: string, fingerprint: string) {
    session in r.creations && r.creations[session].fingerprint == fingerprint
  }

  lemma CreationStays(r: Registry, e: Event, m: Moment, session: string, fingerprint: string)
    requires CanHappen(r, e) && Registered(r, session, fingerprint)
    requires e != CreationEnded(session) && !e.DisposeFinished?
    ensures Registered(Step(r, e, m), session, fingerprint)
  {
    if e.TeardownTimedOut? || e.OrphanFinished? || e.CreationEnded? {
      EndingOrphans(r, e, m);
    } else {
      StepRecords(r, e, m);
    }
  }

  // While a creation is pending, every further request for its session joins it or is refused
  // as conflicting, by its fingerprint, and starts nothing.
  lemma {:induction false} CreationsAreCoalesced(r: Registry, run: seq<(Event, Moment)>, session: string,
                                                 fingerprint: string, asked: string, m: Moment)
    requires Legal(r, run) && Registered(r, session, fingerprint)
    requires !Mentions(run, CreationEnded(session)) && !Mentions(run, DisposeFinished)
    ensures var r1 := After(r, run);
            Create(r1, session, asked, m) ==
              (r1, if r1.disposed then NotStarted(RegistryDisposed) else if asked == fingerprint then Joined else Conflicting)
    decreases |run|
  {
    if run != [] {
      assert run[0].0 != CreationEnded(session) && run[0].0 != DisposeFinished;
      CreationStays(r, run[0].0, run[0].1, session, fingerprint);
      assert forall i :: 0 <= i < |run[1..]| ==> run[1..][i] == run[i + 1];
      CreationsAreCoalesced(Step(r, run[0].0, run[0].1), run[1..], session, fingerprint, asked, m);
    }
  }

  // ---- inventory labels ----------------------------------------------------------------

  // An entry is pending exactly while its teardown is.
  ghost predicate Truthful(inv: seq<Cleanup>, retired: set<nat>, teardowns: set<nat>) {
    forall c :: c in inv ==> c.engine in retired && (c.status.Pending? <==> c.engine in teardowns)
  }

  ghost predicate Labelled(r: Registry) {
    Truthful(r.inventory, r.retired, r.teardowns)
  }

  lemma TrimmedFrom(inv: seq<Cleanup>, c: Cleanup)
    requires |inv| <= CLEANUP_BOUND + 1 && c in Trimmed(inv)
    ensures c in inv
  {
    if |inv| == CLEANUP_BOUND + 1 { TrimsOne(inv); }
  }

  lemma PushTruthful(inv: seq<Cleanup>, retired: set<nat>, teardowns: set<nat>, engine: nat)
    requires Truthful(inv, retired, teardowns) && engine !in retired && |inv| <= CLEANUP_BOUND
    ensures Truthful(Trimmed(inv + [Cleanup(engine, Pending)]), retired + {engine}, teardowns + {engine})
  {
    var pushed := inv + [Cleanup(engine, Pending)];
    forall c | c in Trimmed(pushed)
      ensures c.engine in retired + {engine} && (c.status.Pending? <==> c.engine in teardowns + {engine})
    {
      TrimmedFrom(pushed, c);
    }
  }

  lemma TeardownLabels(r: Registry, session: string, engine: nat, force: bool, m: Moment)
    requires Labelled(r) && |r.inventory| <= CLEANUP_BOUND
    ensures Labelled(ScheduleTeardown(r, session, engine, force, m))
    ensures |ScheduleTeardown(r, session, engine, force, m).inventory| <= CLEANUP_BOUND
  {
    PushInventory(r.inventory, engine);
    if engine !in r.retired { PushTruthful(r.inventory, r.retired, r.teardowns, engine); }
  }

  lemma {:induction false} EvictLabels(r: Registry, queue: seq<Attached>, rule: Rule, m: Moment)
    requires Labelled(r) && |r.inventory| <= CLEANUP_BOUND
    ensures Labelled(EvictFrom(r, queue, rule, m)) && |EvictFrom(r, queue, rule, m).inventory| <= CLEANUP_BOUND
    decreases |queue|
  {
    if queue != [] && !Enough(r, rule) {
      if Evictable(queue[0], r.ttl, rule, m) {
        TeardownLabels(r, queue[0].session, queue[0].engine, false, m);
        EvictLabels(ScheduleTeardown(r, queue[0].session, queue[0].engine, false, m), queue[1..], rule, m);
      } else {
        EvictLabels(r, queue[1..], rule, m);
      }
    }
  }

  lemma {:induction false} DisposeLabels(r: Registry, queue: seq<Attached>, m: Moment)
    requires Labelled(r) && |r.inventory| <= CLEANUP_BOUND
    ensures Labelled(TeardownAll(r, queue, m)) && |TeardownAll(r, queue, m).inventory| <= CLEANUP_BOUND
    decreases |queue|
  {
    if queue != [] {
      TeardownLabels(r, queue[0].session, queue[0].engine, true, m);
      DisposeLabels(ScheduleTeardown(r, queue[0].session, queue[0].engine, true, m), queue[1..], m);
    }
  }

  lemma AttachLabels(r: Registry, session: string, project: Option<string>, m: Moment)
    requires Labelled(r) && |r.inventory| <= CLEANUP_BOUND
    ensures Labelled(Attach(r, session, project, m).0) && |Attach(r, session, project, m).0.inventory| <= CLEANUP_BOUND
  {
    hide *;
    AttachLeaves(r, session, project, m);
    ClearedLabels(r, session, m);
    var r1 := Cleared(r, session, m);
    SeatedLabels(r1, session, project, m);
    EvictionLabels(Seated(r1, session, project, m), IdleBound(session), m);
  }

  lemma ClearedLabels(r: Registry, session: string, m: Moment)
    requires Labelled(r) && |r.inventory| <= CLEANUP_BOUND
    ensures Labelled(Cleared(r, session, m)) && |Cleared(r, session, m).inventory| <= CLEANUP_BOUND
  {
    EvictLabels(r, r.engines, TotalCapacity, m);
    if Get(r.engines, session).Some? { TeardownLabels(r, session, Get(r.engines, session).value.engine, true, m); }
  }

  lemma SeatedLabels(r: Registry, session: string, project: Option<string>, m: Moment)
    requires Labelled(r)
    ensures Labelled(Seated(r, session, project, m)) && Seated(r, session, project, m).inventory == r.inventory
  {
  }

  lemma EvictionLabels(r: Registry, rule: Rule, m: Moment)
    requires Labelled(r) && |r.inventory| <= CLEANUP_BOUND
    ensures Labelled(Evict(r, rule, m)) && |Evict(r, rule, m).inventory| <= CLEANUP_BOUND
  {
    EvictLabels(r, r.engines, rule, m);
  }

  // Nothing of the inventory has changed.
  predicate SameInventory(r: Registry, r1: Registry) {
    r1.inventory == r.inventory && r1.retired == r.retired && r1.teardowns == r.teardowns
  }

  lemma SameLabels(r: Registry, r1: Registry)
    requires Labelled(r) && |r.inventory| <= CLEANUP_BOUND && SameInventory(r, r1)
    ensures Labelled(r1) && |r1.inventory| <= CLEANUP_BOUND
  {
  }

  lemma QuietLabels(r: Registry, session: string, m: Moment)
    ensures SameInventory(r, EndPhase(r, session, Ended))
    ensures SameInventory(r, EndPhase(r.(reservations := r.reservations - {session}), session, Ended))
    ensures SameInventory(r, Use(r, session, m)) && SameInventory(r, DisposeEnd(r))
    ensures session in r.creations ==> SameInventory(r, Finally(r, session))
    ensures forall disposable :: SameInventory(r, Discard(r, session, disposable))
    ensures forall engine :: SameInventory(r, OrphanSettled(r, engine))
  {
  }

  lemma CreateLabels(r: Registry, session: string, fingerprint: string, m: Moment)
    requires Labelled(r) && |r.inventory| <= CLEANUP_BOUND
    ensures Labelled(Create(r, session, fingerprint, m).0) && |Create(r, session, fingerprint, m).0.inventory| <= CLEANUP_BOUND
  {
    CreateIs(r, session, fingerprint, m);
    EvictionLabels(r, TotalCapacity, m);
  }

  lemma BuiltLabels(r: Registry, session: string, path: string, disposable: bool, m: Moment)
    requires Labelled(r) && |r.inventory| <= CLEANUP_BOUND
    ensures var r1 := Built(r, session, path, disposable, m).0; Labelled(r1) && |r1.inventory| <= CLEANUP_BOUND
  {
    hide *;
    BuiltTurn(r, session, path, disposable, m);
    QuietLabels(r, session, m);
    SameLabels(r, Discard(r, session, disposable));
    var r1 := EndPhase(r.(reservations := r.reservations - {session}), session, Ended);
    SameLabels(r, r1);
    AttachLabels(r1, session, Some(path), m);
    var r2 := Attach(r1, session, Some(path), m).0;
    QuietLabels(r2, session, m);
    SameLabels(r2, Discard(r2, session, disposable));
  }

  lemma ReleaseLabels(r: Registry, session: string, m: Moment)
    requires Labelled(r) && |r.inventory| <= CLEANUP_BOUND
    ensures var r1 := Release(r, session, m).0; Labelled(r1) && |r1.inventory| <= CLEANUP_BOUND
  {
    if Get(r.engines, session).Some? {
      var engine := Get(r.engines, session).value.engine;
      TeardownLabels(r.(engines := Unlease(r.engines, engine)), session, engine, false, m);
    }
  }

  lemma TimedOutLabels(r: Registry, engine: nat)
    requires Labelled(r) && |r.inventory| <= CLEANUP_BOUND
    ensures Labelled(TimedOut(r, engine)) && |TimedOut(r, engine).inventory| <= CLEANUP_BOUND
  {
    SettledLabels(r, engine, false);
  }

  lemma AllLabels(r: Registry, m: Moment)
    requires Labelled(r) && |r.inventory| <= CLEANUP_BOUND
    ensures var r1 := TeardownAll(r.(disposed := true), r.engines, m); Labelled(r1) && |r1.inventory| <= CLEANUP_BOUND
  {
    DisposeLabels(r.(disposed := true), r.engines, m);
  }

  lemma {:induction false} RestatusAt(inv: seq<Cleanup>, engine: nat, status: CleanupStatus)
    ensures |Restatus(inv, engine, status)| == |inv|
    ensures forall i :: 0 <= i < |inv| ==>
      Restatus(inv, engine, status)[i] == if inv[i].engine == engine then inv[i].(status := status) else inv[i]
  {
    if inv != [] { RestatusAt(inv[1..], engine, status); }
  }

  lemma SettledLabels(r: Registry, engine: nat, clean: bool)
    requires Labelled(r)
    ensures Labelled(Settled(r, engine, clean)) && |Settled(r, engine, clean).inventory| == |r.inventory|
  {
    var status := if clean then Completed else Failed;
    RestatusAt(r.inventory, engine, status);
    var inv := Restatus(r.inventory, engine, status);
    forall c | c in inv ensures c.engine in r.retired && (c.status.Pending? <==> c.engine in r.teardowns - {engine}) {
      var i :| 0 <= i < |inv| && inv[i] == c;
      assert r.inventory[i] in r.inventory;
    }
  }

  lemma StepLabels(r: Registry, e: Event, m: Moment)
    requires Labelled(r) && |r.inventory| <= CLEANUP_BOUND && CanHappen(r, e)
    ensures Labelled(Step(r, e, m)) && |Step(r, e, m).inventory| <= CLEANUP_BOUND
  {
    hide *;
    StepIs(r, e, m);
    match e
    case AttachCalled(session, project) => AttachLabels(r, session, project, m);
    case DetachCalled(session, engine) => TeardownLabels(r, session, engine, true, m);
    case CreateCalled(session, fingerprint) => CreateLabels(r, session, fingerprint, m);
    case FactoryResolved(session, path, disposable) => BuiltLabels(r, session, path, disposable, m);
    case FactoryRejected(session) => QuietLabels(r, session, m); SameLabels(r, Step(r, e, m));
    case CreationEnded(session) => QuietLabels(r, session, m); SameLabels(r, Step(r, e, m));
    case Used(session) => QuietLabels(r, session, m); SameLabels(r, Step(r, e, m));
    case ReleaseCalled(session) => ReleaseLabels(r, session, m);
    case SweepFired => EvictionLabels(r, IdleSweep, m);
    case TeardownSettled(engine, clean) => SettledLabels(r, engine, clean);
    case TeardownTimedOut(engine) => TimedOutLabels(r, engine);
    case OrphanFinished(engine) => QuietLabels(r, "", m); SameLabels(r, Step(r, e, m));
    case DisposeCalled => AllLabels(r, m);
    case DisposeFinished => QuietLabels(r, "", m); SameLabels(r, Step(r, e, m));
  }

  lemma {:induction false} RunsKeepLabels(r: Registry, run: seq<(Event, Moment)>)
    requires Labelled(r) && |r.inventory| <= CLEANUP_BOUND && Legal(r, run)
    ensures Labelled(After(r, run))
    decreases |run|
  {
    if run != [] {
      StepLabels(r, run[0].0, run[0].1);
      RunsKeepLabels(Step(r, run[0].0, run[0].1), run[1..]);
    }
  }

  // Over every run the inventory shows each listed teardown as pending exactly while it is.
  lemma InventoryIsTruthful(maxIdle: nat, maxTotal: nat, ttl: nat, hasFactory: bool, run: seq<(Event, Moment)>)
    requires Legal(Empty(maxIdle, maxTotal, ttl, hasFactory), run)
    ensures Labelled(After(Empty(maxIdle, maxTotal, ttl, hasFactory), run))
  {
    RunsKeepLabels(Empty(maxIdle, maxTotal, ttl, hasFactory), run);
  }
}

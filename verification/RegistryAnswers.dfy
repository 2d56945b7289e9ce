/** What each call of the registry answers, exactly, in every reachable state. */
module RegistryAnswers {
  import opened Base
  import opened RegistryModel
  import opened RegistryInvariant
  import opened RegistrySteps
  import opened RegistryTheorems
  import opened RegistryHealth

  predicate IsAttached(r: Registry, session: string) {
    exists i :: 0 <= i < |r.engines| && r.engines[i].session == session
  }

  /** Nothing is quarantined, and a place is free or some attachment is neither leased nor busy. */
  predicate HasRoom(r: Registry, m: Moment) {
    && r.orphaned == {}
    && (|r.engines| + |r.reservations| < r.maxTotal
        || exists i :: 0 <= i < |r.engines| && r.engines[i].lease <= m.now && r.engines[i].engine !in m.busy)
  }

  /** Why a session that is not attached finds no place. */
  function NoRoom(r: Registry): Refusal {
    if r.orphaned != {} then Quarantined else AtCapacity
  }

  lemma GetIsAttached(r: Registry, session: string)
    ensures Get(r.engines, session).Some? <==> IsAttached(r, session)
  {
    GetFinds(r.engines, session);
    if IsAttached(r, session) {
      var i :| 0 <= i < |r.engines| && r.engines[i].session == session;
      assert r.engines[i] in r.engines;
    }
  }

  /** A session that is not attached is let in exactly when there is room; a refusal changes nothing. */
  lemma AdmissionIsExact(r: Registry, m: Moment)
    requires Reachable(r)
    ensures Admission(r, m).1 == if HasRoom(r, m) then None else Some(NoRoom(r))
    ensures !HasRoom(r, m) ==> Admission(r, m).0 == r
    ensures OnlyTeardowns(r, Admission(r, m).0)
  {
    ReachableInv(r);
    AdmissionKeeps(r, m);
    CapacityRefusalIsJustified(r, m);
    AdmissionIs(r, m);
    assert WithinCapacity(r);
    if exists i :: 0 <= i < |r.engines| && r.engines[i].lease <= m.now && r.engines[i].engine !in m.busy {
      var i :| 0 <= i < |r.engines| && r.engines[i].lease <= m.now && r.engines[i].engine !in m.busy;
      assert r.engines[i] in r.engines && Idle(r.engines[i], m);
    }
  }

  // ---- creation ------------------------------------------------------------------------

  /** The creation needs a place of its own. */
  predicate NeedsPlace(r: Registry, session: string) {
    !IsAttached(r, session) && r.hasFactory
  }

  /**
   The answer to a request for a session with no pending creation: started exactly when the registry is not disposed,
   fewer than 256 creations are pending, and the session needs no place of its own or there is room for it. A started
   creation that needs a place holds its reservation; a request that is not started leaves everything as it was.
   */
  lemma CreationIsExact(r: Registry, session: string, fingerprint: string, m: Moment)
    requires Reachable(r) && session !in r.creations
    ensures var (r1, reply) := Create(r, session, fingerprint, m);
            && reply == (if r.disposed then NotStarted(RegistryDisposed)
                         else if |r.creations| >= 256 then TooManyPending
                         else if !NeedsPlace(r, session) || HasRoom(r, m) then Started
                         else NotStarted(NoRoom(r)))
            && (reply != Started ==> r1 == r)
            && (reply == Started && NeedsPlace(r, session) ==>
                  && r1.reservations == r.reservations + {session}
                  && r1.creations == r.creations[session := Creation(fingerprint, true, Building)])
            && (reply == Started && !NeedsPlace(r, session) ==>
                  r1 == r.(creations := r.creations[session := Creation(fingerprint, false, Ended)]))
  {
    hide *;
    GetIsAttached(r, session);
    NeedsIs(r, session);
    AdmissionIsExact(r, m);
    SameCreations(r, Admission(r, m).0);
    CreateAnswers(r, session, fingerprint, m);
  }

  lemma NeedsIs(r: Registry, session: string)
    ensures NeedsPlace(r, session) <==> !IsAttached(r, session) && r.hasFactory
  {
  }

  lemma CreateAnswers(r: Registry, session: string, fingerprint: string, m: Moment)
    requires session !in r.creations
    ensures var (r1, error) := Admission(r, m);
            Create(r, session, fingerprint, m) ==
              if r.disposed then (r, NotStarted(RegistryDisposed))
              else if |r.creations| >= 256 then (r, TooManyPending)
              else if Get(r.engines, session).Some? || !r.hasFactory
              then (r.(creations := r.creations[session := Creation(fingerprint, false, Ended)]), Started)
              else if error.Some? then (r1, NotStarted(error.value))
              else (r1.(reservations := r1.reservations + {session},
                        creations := r1.creations[session := Creation(fingerprint, true, Building)]), Started)
  {
  }

  // No creation is added.
  predicate NoNewCreations(r: Registry, r1: Registry) {
    r1.creations.Keys <= r.creations.Keys
  }

  lemma OldCreations(r: Registry, session: string, path: string, disposable: bool, m: Moment)
    ensures NoNewCreations(r, Built(r, session, path, disposable, m).0)
  {
    hide *;
    BuiltTurn(r, session, path, disposable, m);
    var r1 := EndPhase(r.(reservations := r.reservations - {session}), session, Ended);
    var r2 := Attach(r1, session, Some(path), m).0;
    AttachKeepsRecords(r1, session, Some(path), m);
    EndAddsNone(r, session, disposable);
    EndAddsNone(r2, session, disposable);
    NoNewTrans(r, r1, r2);
    NoNewTrans(r, r2, Discard(r2, session, disposable));
  }

  lemma EndAddsNone(r: Registry, session: string, disposable: bool)
    ensures NoNewCreations(r, EndPhase(r, session, Ended)) && NoNewCreations(r, Discard(r, session, disposable))
    ensures NoNewCreations(r, EndPhase(r.(reservations := r.reservations - {session}), session, Ended))
  {
  }

  lemma NoNewTrans(r: Registry, r1: Registry, r2: Registry)
    ensures NoNewCreations(r, r1) && NoNewCreations(r1, r2) ==> NoNewCreations(r, r2)
    ensures NoNewCreations(r, r1) && r2.creations == r1.creations ==> NoNewCreations(r, r2)
  {
  }

  lemma OtherCreations(r: Registry, session: string, engine: nat, clean: bool, m: Moment)
    ensures NoNewCreations(r, ScheduleTeardown(r, session, engine, true, m)) && NoNewCreations(r, Use(r, session, m))
    ensures NoNewCreations(r, Release(r, session, m).0) && NoNewCreations(r, DisposeEnd(r)) && NoNewCreations(r, r)
    ensures NoNewCreations(r, Settled(r, engine, clean)) && NoNewCreations(r, TimedOut(r, engine)) && NoNewCreations(r, OrphanSettled(r, engine))
    ensures session in r.creations ==> NoNewCreations(r, Finally(r, session))
  {
  }

  // Only a request adds a creation.
  lemma StepAddsNone(r: Registry, e: Event, m: Moment)
    requires CanHappen(r, e) && !e.CreateCalled?
    ensures NoNewCreations(r, Step(r, e, m))
  {
    hide *;
    StepIs(r, e, m);
    NoNewTrans(r, r, Step(r, e, m));
    OtherCreations(r, "", 0, true, m);
    match e
    case AttachCalled(session, project) => AttachKeepsRecords(r, session, project, m);
    case DetachCalled(session, engine) => OtherCreations(r, session, engine, true, m);
    case FactoryResolved(session, path, disposable) => OldCreations(r, session, path, disposable, m);
    case FactoryRejected(session) => EndAddsNone(r, session, true);
    case CreationEnded(session) => OtherCreations(r, session, 0, true, m);
    case Used(session) => OtherCreations(r, session, 0, true, m);
    case ReleaseCalled(session) => OtherCreations(r, session, 0, true, m);
    case SweepFired => EvictRecords(r, IdleSweep, m);
    case TeardownSettled(engine, clean) => OtherCreations(r, "", engine, clean, m);
    case TeardownTimedOut(engine) => OtherCreations(r, "", engine, true, m);
    case OrphanFinished(engine) => OtherCreations(r, "", engine, true, m);
    case DisposeCalled => DisposeKeepsRecords(r.(disposed := true), r.engines, m);
    case DisposeFinished =>
  }

  lemma StepBoundsPending(r: Registry, e: Event, m: Moment)
    requires CanHappen(r, e) && |r.creations| <= 256
    ensures |Step(r, e, m).creations| <= 256
  {
    if e.CreateCalled? {
      CreateIs(r, e.session, e.fingerprint, m);
      AdmissionRecords(r, m);
      if |r.creations| == 256 { FullStays(r, e.session, e.fingerprint, m); }
    } else {
      StepAddsNone(r, e, m);
      FewerKeys(Step(r, e, m).creations.Keys, r.creations.Keys);
    }
  }

  lemma FullStays(r: Registry, session: string, fingerprint: string, m: Moment)
    requires |r.creations| == 256
    ensures Create(r, session, fingerprint, m).0.creations == r.creations
  {
  }

  lemma FewerKeys(x: set<string>, y: set<string>)
    requires x <= y
    ensures |x| <= |y|
  {
    assert y == x + (y - x);
  }

  lemma {:induction false} RunsBoundPending(r: Registry, run: seq<(Event, Moment)>)
    requires |r.creations| <= 256 && Legal(r, run)
    ensures |After(r, run).creations| <= 256
    decreases |run|
  {
    if run != [] {
      StepBoundsPending(r, run[0].0, run[0].1);
      RunsBoundPending(Step(r, run[0].0, run[0].1), run[1..]);
    }
  }

  /** Over every run at most 256 creations are pending. */
  lemma PendingIsBounded(r: Registry)
    requires Reachable(r)
    ensures |r.creations| <= 256
  {
    var maxIdle: nat, maxTotal: nat, ttl: nat, hasFactory: bool, run: seq<(Event, Moment)> :|
      Legal(Empty(maxIdle, maxTotal, ttl, hasFactory), run)
      && r == After(Empty(maxIdle, maxTotal, ttl, hasFactory), run);
    RunsBoundPending(Empty(maxIdle, maxTotal, ttl, hasFactory), run);
  }

  // ---- attachment ----------------------------------------------------------------------

  /**
   An attachment is refused exactly when the registry is disposed or the session is new and there is no room. Otherwise the
   session holds the new engine, unleased and last used now, and the engine it replaces, busy or not, has had its
   teardown begun.
   */
  lemma AttachmentIsExact(r: Registry, session: string, project: Option<string>, m: Moment)
    requires Reachable(r)
    ensures var (r1, reply) := Attach(r, session, project, m);
            && reply == (if r.disposed then NotAttached(RegistryDisposed)
                         else if IsAttached(r, session) || HasRoom(r, m) then Admitted(r.made)
                         else NotAttached(NoRoom(r)))
            && (reply.NotAttached? ==> r1 == r)
            && (reply.Admitted? ==>
                  && Attached(session, r.made, project, 0, m.now, r.touches) in r1.engines
                  && (forall a :: a in r.engines && a.session == session ==> a.engine in r1.begun && !Holds(r1.engines, a.engine)))
  {
    hide *;
    ReachableInv(r);
    GetIsAttached(r, session);
    AdmissionIsExact(r, m);
    SameCreations(r, Admission(r, m).0);
    AttachAnswers(r, session, project, m);
    if Attach(r, session, project, m).1.Admitted? {
      SeatIsKept(r, session, project, m);
      Inside(r);
      if Get(r.engines, session).Some? { ReplacedIsBegun(r, session, project, m); }
      forall a | a in r.engines && a.session == session ensures Get(r.engines, session).Some? && a == Get(r.engines, session).value {
        OnlyOne(r, session, a);
      }
    }
  }

  lemma OnlyOne(r: Registry, session: string, a: Attached)
    requires Tidy(r.engines) && a in r.engines && a.session == session
    ensures Get(r.engines, session).Some? && a == Get(r.engines, session).value
  {
    GetFinds(r.engines, session);
    var i :| 0 <= i < |r.engines| && r.engines[i] == a;
    var j :| 0 <= j < |r.engines| && r.engines[j] == Get(r.engines, session).value;
  }

  lemma AttachAnswers(r: Registry, session: string, project: Option<string>, m: Moment)
    ensures var (r1, error), previous := Admission(r, m), Get(r.engines, session);
            && Attach(r, session, project, m).1 ==
                 (if r.disposed then NotAttached(RegistryDisposed)
                  else if previous.Some? then Admitted(r.made)
                  else if error.Some? then NotAttached(error.value)
                  else Admitted(r1.made))
            && (r.disposed ==> Attach(r, session, project, m).0 == r)
            && (!r.disposed && previous.None? && error.Some? ==> Attach(r, session, project, m).0 == r1)
  {
  }

  lemma SeatIsKept(r: Registry, session: string, project: Option<string>, m: Moment)
    requires Inv(r) && Attach(r, session, project, m).1.Admitted?
    ensures Attached(session, r.made, project, 0, m.now, r.touches) in Attach(r, session, project, m).0.engines
  {
    hide *;
    AttachKeeps(r, session, project, m);
    var r1 := Cleared(r, session, m);
    var seated := Seated(r1, session, project, m);
    ClearedKeeps(r, session, m);
    SameCreations(r, r1);
    SameTouches(r, r1);
    SeatIs(r1, session, project, m);
    var a := Attached(session, r.made, project, 0, m.now, r.touches);
    if a !in Evict(seated, IdleBound(session), m).engines {
      EvictLoses(seated, IdleBound(session), m, a, a);
      KeptSeat(a, seated.ttl, session, m);
      assert false;
    }
  }

  lemma SameTouches(r: Registry, r1: Registry)
    requires OnlyTeardowns(r, r1)
    ensures r1.touches == r.touches
  {
  }

  lemma SeatIs(r: Registry, session: string, project: Option<string>, m: Moment)
    ensures Attached(session, r.made, project, 0, m.now, r.touches) in Seated(r, session, project, m).engines
  {
    assert Seated(r, session, project, m).engines[|r.engines|] == Attached(session, r.made, project, 0, m.now, r.touches);
  }

  lemma ReplacedIsBegun(r: Registry, session: string, project: Option<string>, m: Moment)
    requires Inv(r) && Attach(r, session, project, m).1.Admitted? && Get(r.engines, session).Some?
    ensures var replaced, r1 := Get(r.engines, session).value.engine, Attach(r, session, project, m).0;
            replaced in r1.begun && !Holds(r1.engines, replaced)
  {
    hide *;
    AttachKeeps(r, session, project, m);
    var cleared, replaced := Cleared(r, session, m), Get(r.engines, session).value.engine;
    PreviousIsBegun(r, session, m);
    var seated := Seated(cleared, session, project, m);
    SeatBegins(cleared, session, project, m);
    EvictKeeps(seated, IdleBound(session), m);
    StaysBegun(seated, Evict(seated, IdleBound(session), m), IdleBound(session), m, replaced);
  }

  lemma PreviousIsBegun(r: Registry, session: string, m: Moment)
    requires Inv(r) && Get(r.engines, session).Some?
    ensures Get(r.engines, session).value.engine in Cleared(r, session, m).begun
  {
    GetFinds(r.engines, session);
    var k: nat :| k < |r.engines| && r.engines[k] == Get(r.engines, session).value;
    TeardownRemoves(r, k, true, m);
  }

  lemma SeatBegins(r: Registry, session: string, project: Option<string>, m: Moment)
    ensures Seated(r, session, project, m).begun == r.begun
  {
  }

  lemma StaysBegun(r: Registry, r1: Registry, rule: Rule, m: Moment, engine: nat)
    requires EvictsTo(r, r1, [], rule, m) && engine in r.begun
    ensures engine in r1.begun && !Holds(r1.engines, engine)
  {
    assert Inv(r1) && r.begun <= r1.begun;
    var i :| 0 <= i < |r.begun| && r.begun[i] == engine;
    assert r1.begun[i] == engine;
  }

  // ---- forced teardown and shutdown ----------------------------------------------------

  /** Detaching ends the attachment at once, busy or not. */
  lemma DetachEnds(r: Registry, session: string, engine: nat, m: Moment)
    requires Reachable(r) && CanHappen(r, DetachCalled(session, engine))
    ensures var r1 := Step(r, DetachCalled(session, engine), m); engine in r1.begun && !Holds(r1.engines, engine)
  {
    ReachableInv(r);
    StepKeepsInv(r, DetachCalled(session, engine), m);
    if engine !in r.retired {
      var k: nat :| k < |r.engines| && r.engines[k].session == session && r.engines[k].engine == engine;
      TeardownRemoves(r, k, true, m);
    }
  }

  /** Disposal leaves nothing attached: every attachment, busy or not, has had its teardown begun. */
  lemma DisposalEndsAll(r: Registry, m: Moment, a: Attached)
    requires Reachable(r)
    ensures var r1 := Step(r, DisposeCalled, m);
            r1.disposed && r1.engines == [] && (a in r.engines ==> a.engine in r1.begun)
  {
    hide *;
    ReachableInv(r);
    Inside(r);
    DisposeKeeps(r, m);
    StepIs(r, DisposeCalled, m);
    var r0 := r.(disposed := true);
    DisposedInv(r);
    TeardownAllKeeps(r0, r0.engines, m);
    Inside(Step(r, DisposeCalled, m));
    StaysDisposed(r0, r0.engines, m);
    TeardownAllMakes(r0, r0.engines, m);
    if a in r.engines {
      HoldsIt(r.engines, a);
      NothingHeld(Step(r, DisposeCalled, m), a.engine);
      LeavingIsBegun(r, Step(r, DisposeCalled, m), a.engine);
    }
  }

  lemma DisposedInv(r: Registry)
    requires Inv(r)
    ensures Inv(r.(disposed := true)) && CanHappen(r, DisposeCalled)
  {
  }

  lemma NothingHeld(r: Registry, engine: nat)
    requires r.engines == []
    ensures !Holds(r.engines, engine)
  {
  }

  lemma {:induction false} StaysDisposed(r: Registry, queue: seq<Attached>, m: Moment)
    ensures TeardownAll(r, queue, m).disposed == r.disposed
    decreases |queue|
  {
    if queue != [] { StaysDisposed(ScheduleTeardown(r, queue[0].session, queue[0].engine, true, m), queue[1..], m); }
  }

  lemma {:induction false} TeardownAllMakes(r: Registry, queue: seq<Attached>, m: Moment)
    ensures TeardownAll(r, queue, m).made == r.made
    decreases |queue|
  {
    if queue != [] { TeardownAllMakes(ScheduleTeardown(r, queue[0].session, queue[0].engine, true, m), queue[1..], m); }
  }

  predicate Over(r: Registry) {
    r.disposed && r.engines == []
  }

  /** After disposal nothing is attached or started any more, and what was still being created is forgotten in the end. */
  lemma {:induction false} NothingAfterDisposal(r: Registry, run: seq<(Event, Moment)>, session: string, fingerprint: string, m: Moment)
    requires Over(r) && Legal(r, run)
    ensures Over(After(r, run))
    ensures Create(After(r, run), session, fingerprint, m) == (After(r, run), NotStarted(RegistryDisposed))
    ensures Attach(After(r, run), session, None, m) == (After(r, run), NotAttached(RegistryDisposed))
    ensures DisposeEnd(After(r, run)).creations == map[] && DisposeEnd(After(r, run)).reservations == {}
    decreases |run|
  {
    if run != [] {
      EndedStays(r, run[0].0, run[0].1);
      NothingAfterDisposal(Step(r, run[0].0, run[0].1), run[1..], session, fingerprint, m);
    }
  }

  lemma EndedStays(r: Registry, e: Event, m: Moment)
    requires Over(r) && CanHappen(r, e)
    ensures Over(Step(r, e, m))
  {
  }

  // ---- builds that are not attached ----------------------------------------------------

  /**
   A build that is not attached, because the registry was disposed, the session was attached meanwhile or there was no
   room, has its own disposal begun if it can be disposed of, and its creation does not end before that has settled.
   */
  lemma UnattachedBuildsAreDisposed(r: Registry, session: string, path: string, disposable: bool, m: Moment)
    requires Reachable(r) && CanHappen(r, FactoryResolved(session, path, disposable))
    ensures var (r1, reply) := Built(r, session, path, disposable, m);
            && (r.disposed || IsAttached(r, session) ==> reply == None)
            && (!r.disposed && !IsAttached(r, session) ==> reply == Some(if r.orphaned == {} then Admitted(r.made) else NotAttached(Quarantined)))
            && (reply == None || reply.value.NotAttached? ==>
                  if disposable
                  then r1.begun == r.begun + [r.made] && r1.made == r.made + 1 && r.made in r1.discards && r1.engines == r.engines
                       && !CanHappen(r1, CreationEnded(session))
                  else r1.begun == r.begun && r1.made == r.made && r1.engines == r.engines)
  {
    hide *;
    ReachableInv(r);
    GetIsAttached(r, session);
    BuiltTurn(r, session, path, disposable, m);
    DiscardIs(r, session, disposable);
    if !r.disposed && !IsAttached(r, session) {
      BuildingOf(r, session, path, disposable);
      ReservedCreationsAttach(r, session, path, disposable, m);
      UnreservedKeeps(r, session);
      var r1 := EndPhase(r.(reservations := r.reservations - {session}), session, Ended);
      EndPhaseIs(r, session);
      SameBegun(r, session);
      if r.orphaned != {} { QuarantineRefuses(r1, session, Some(path), m); }
      DiscardIs(r1, session, disposable);
    }
  }

  lemma DiscardIs(r: Registry, session: string, disposable: bool)
    ensures var r1 := Discard(r, session, disposable);
            if disposable
            then r1.begun == r.begun + [r.made] && r1.made == r.made + 1 && r.made in r1.discards && r1.engines == r.engines
                 && !CanHappen(r1, CreationEnded(session))
            else r1.begun == r.begun && r1.made == r.made && r1.engines == r.engines
  {
  }

  lemma SameBegun(r: Registry, session: string)
    ensures EndPhase(r.(reservations := r.reservations - {session}), session, Ended).begun == r.begun
  {
  }

  lemma QuarantineRefuses(r: Registry, session: string, project: Option<string>, m: Moment)
    requires !r.disposed && Get(r.engines, session).None? && r.orphaned != {}
    ensures Attach(r, session, project, m) == (r, NotAttached(Quarantined))
  {
  }

  /**
   A creation that ends is no longer pending and holds no place any more; every other creation and reservation stays.
   */
  lemma EndedCreationsGiveBack(r: Registry, session: string, m: Moment)
    requires Reachable(r) && CanHappen(r, CreationEnded(session))
    ensures Step(r, CreationEnded(session), m) ==
              r.(creations := r.creations - {session}, reservations := r.reservations - {session})
  {
    ReachableInv(r);
    assert Promised(r);
    if session !in r.reservations { assert r.reservations - {session} == r.reservations; }
  }

  /**
   No pending creation is stuck: a build that is rejected can end at once, one that resolves is no longer building, and
   one whose engine was thrown away can end as soon as that disposal has ended or timed out.
   */
  lemma NoCreationIsStuck(r: Registry, session: string, path: string, disposable: bool, clean: bool, m: Moment)
    requires session in r.creations
    ensures var phase := r.creations[session].phase;
            phase.Building? ==>
              && CanHappen(r, FactoryRejected(session)) && CanHappen(r, FactoryResolved(session, path, disposable))
              && CanHappen(Step(r, FactoryRejected(session), m), CreationEnded(session))
              && (var r1 := Step(r, FactoryResolved(session, path, disposable), m);
                  session in r1.creations && !r1.creations[session].phase.Building?)
    ensures var phase := r.creations[session].phase;
            !phase.Building? ==>
              if phase.Discarding? && phase.engine in r.discards
              then CanHappen(Step(r, TeardownSettled(phase.engine, clean), m), CreationEnded(session))
                   && CanHappen(Step(r, TeardownTimedOut(phase.engine), m), CreationEnded(session))
              else CanHappen(r, CreationEnded(session))
  {
    hide Attach, Get, Restatus;
    if r.creations[session].phase.Building? {
      BuiltTurn(r, session, path, disposable, m);
      SameCreationsAttached(r, session, path, m);
    }
  }

  lemma SameCreationsAttached(r: Registry, session: string, path: string, m: Moment)
    requires session in r.creations
    ensures var r1 := EndPhase(r.(reservations := r.reservations - {session}), session, Ended);
            var r2 := Attach(r1, session, Some(path), m).0;
            session in r2.creations && r2.creations[session].phase == Ended
  {
    hide Attach;
    AttachKeepsRecords(EndPhase(r.(reservations := r.reservations - {session}), session, Ended), session, Some(path), m);
  }

  // ---- how teardowns end ---------------------------------------------------------------

  /**
   A teardown that ends in time is listed as completed exactly when it was clean, else as failed; one that times out is
   listed as failed and quarantined. Either way it is no longer under way, and no other entry changes.
   */
  lemma TeardownEndIsExact(r: Registry, engine: nat, clean: bool)
    ensures var r1, r2 := Settled(r, engine, clean), TimedOut(r, engine);
            && |r1.inventory| == |r2.inventory| == |r.inventory|
            && (forall i :: 0 <= i < |r.inventory| ==>
                  && r1.inventory[i] == (if r.inventory[i].engine != engine then r.inventory[i]
                                         else Cleanup(engine, if clean then Completed else Failed))
                  && r2.inventory[i] == (if r.inventory[i].engine != engine then r.inventory[i] else Cleanup(engine, Failed)))
            && r1.teardowns == r2.teardowns == r.teardowns - {engine}
            && r1.discards == r2.discards == r.discards - {engine}
            && r1.orphaned == r.orphaned && r2.orphaned == r.orphaned + {engine}
  {
    RestatusAt(r.inventory, engine, if clean then Completed else Failed);
    RestatusAt(r.inventory, engine, Failed);
  }
}

/** What holds of the registry over every run. */
module RegistryTheorems {
  import opened Base
  import opened RegistryModel
  import opened RegistryInvariant
  import opened RegistrySteps

  // Attached sessions and reservations together never exceed the total limit.
  lemma CapacityIsNeverExceeded(r: Registry)
    requires Reachable(r)
    ensures |r.engines| + |r.reservations| <= r.maxTotal
    ensures forall i, j :: 0 <= i < j < |r.engines| ==> r.engines[i].session != r.engines[j].session
  {
    ReachableInv(r);
  }

  // When its factory delivers, a creation is never turned away for capacity: it attaches
  // unless some earlier teardown is quarantined.
  lemma ReservedCreationsAttach(r: Registry, session: string, path: string, disposable: bool, m: Moment)
    requires Reachable(r) && !r.disposed
    requires session in r.creations && r.creations[session].phase.Building?
    requires Get(r.engines, session).None?
    ensures var (r1, reply) := Built(r, session, path, disposable, m);
            && reply == Some(if r.orphaned == {} then Admitted(r.made) else NotAttached(Quarantined))
            && (r.orphaned == {} ==> Present(r1.engines, session, r.made))
  {
    hide *;
    ReachableInv(r);
    UnreservedKeeps(r, session);
    BuiltTurn(r, session, path, disposable, m);
    var r1 := EndPhase(r.(reservations := r.reservations - {session}), session, Ended);
    EndPhaseIs(r, session);
    AdmissionKeeps(r1, m);
    SameCreations(r1, Admission(r1, m).0);
    AdmissionIs(r1, m);
    AttachReplies(r1, session, Some(path), m);
    if r.orphaned == {} { AttachSeats(r1, session, Some(path), m); }
  }

  lemma EndPhaseIs(r: Registry, session: string)
    requires session in r.creations
    ensures var r1 := EndPhase(r.(reservations := r.reservations - {session}), session, Ended);
            && r1.engines == r.engines && r1.reservations == r.reservations - {session} && r1.maxTotal == r.maxTotal
            && r1.orphaned == r.orphaned && r1.made == r.made && r1.disposed == r.disposed
  {
  }

  lemma AdmissionIs(r: Registry, m: Moment)
    ensures Admission(r, m).1 == Some(Quarantined) <==> r.orphaned != {}
    ensures Admission(r, m).1.Some? ==> Admission(r, m).1 == Some(Quarantined) || Admission(r, m).1 == Some(AtCapacity)
  {
  }

  lemma AttachReplies(r: Registry, session: string, project: Option<string>, m: Moment)
    requires !r.disposed && Get(r.engines, session).None?
    ensures var (r1, error) := Admission(r, m);
            Attach(r, session, project, m).1 == if error.Some? then NotAttached(error.value) else Admitted(r1.made)
  {
  }

  // The session just attached keeps its seat.
  lemma AttachSeats(r: Registry, session: string, project: Option<string>, m: Moment)
    requires Inv(r) && Attach(r, session, project, m).1.Admitted?
    ensures Present(Attach(r, session, project, m).0.engines, session, r.made)
  {
    hide *;
    AttachKeeps(r, session, project, m);
    var r1 := Cleared(r, session, m);
    var seated := Seated(r1, session, project, m);
    ClearedKeeps(r, session, m);
    SameCreations(r, r1);
    SeatedLast(r1, session, project, m);
    var a := seated.engines[|r1.engines|];
    if a !in Evict(seated, IdleBound(session), m).engines {
      EvictLoses(seated, IdleBound(session), m, a, a);
      KeptSeat(a, seated.ttl, session, m);
      assert false;
    }
    PresentIs(Evict(seated, IdleBound(session), m).engines, a);
  }

  lemma SeatedLast(r: Registry, session: string, project: Option<string>, m: Moment)
    ensures var seated := Seated(r, session, project, m);
            && |seated.engines| == |r.engines| + 1
            && seated.engines[|r.engines|].session == session && seated.engines[|r.engines|].engine == r.made
            && seated.engines[|r.engines|] in seated.engines
  {
  }

  lemma KeptSeat(a: Attached, ttl: nat, session: string, m: Moment)
    ensures a.session == session ==> !Evictable(a, ttl, IdleBound(session), m)
  {
  }

  lemma PresentIs(s: seq<Attached>, a: Attached)
    requires a in s
    ensures Present(s, a.session, a.engine)
  {
    var i :| 0 <= i < |s| && s[i] == a;
  }

  // Refusal for capacity says exactly that the registry is full and nothing in it can be evicted.
  lemma CapacityRefusalIsJustified(r: Registry, m: Moment)
    requires Reachable(r)
    ensures Admission(r, m).1 == Some(AtCapacity) <==>
            && r.orphaned == {}
            && |r.engines| + |r.reservations| == r.maxTotal
            && forall a :: a in r.engines ==> !Idle(a, m)
    ensures Admission(r, m).1.Some? ==> Admission(r, m).0 == r
  {
    ReachableInv(r);
    EvictKeeps(r, TotalCapacity, m);
    if Admission(r, m).1 == Some(AtCapacity) { FullMeansProtected(r, m); }
    if |r.engines| + |r.reservations| == r.maxTotal && (forall a :: a in r.engines ==> !Idle(a, m)) {
      NothingGoes(r, r.engines, m);
    }
  }

  lemma FullMeansProtected(r: Registry, m: Moment)
    requires Inv(r) && |Evict(r, TotalCapacity, m).engines| + |r.reservations| >= r.maxTotal
    ensures Evict(r, TotalCapacity, m) == r
    ensures |r.engines| + |r.reservations| == r.maxTotal
    ensures forall a :: a in r.engines ==> !Idle(a, m)
  {
    hide *;
    EvictKeeps(r, TotalCapacity, m);
    var r1 := Evict(r, TotalCapacity, m);
    NoRoomLeft(r, r1, m);
    Inside(r);
    StillFull(r, r1);
  }

  lemma StillFull(r: Registry, r1: Registry)
    requires WithinCapacity(r) && |r1.engines| + |r.reservations| >= r.maxTotal
    requires r1 == r || |r1.engines| < |r.engines|
    ensures r1 == r && |r.engines| + |r.reservations| == r.maxTotal
  {
  }

  lemma NoRoomLeft(r: Registry, r1: Registry, m: Moment)
    requires EvictsTo(r, r1, [], TotalCapacity, m) && |r1.engines| + |r.reservations| >= r.maxTotal
    ensures r1 == r || |r1.engines| < |r.engines|
    ensures forall a :: a in r1.engines ==> !Idle(a, m)
  {
    assert OnlyTeardowns(r, r1);
    forall a | a in r1.engines ensures !Idle(a, m) {
      var i :| 0 <= i < |r1.engines| && r1.engines[i] == a;
      assert !Evictable(r1.engines[i], r.ttl, TotalCapacity, m);
    }
  }

  lemma {:induction false} NothingGoes(r: Registry, queue: seq<Attached>, m: Moment)
    requires forall a :: a in queue ==> !Idle(a, m)
    ensures EvictFrom(r, queue, TotalCapacity, m) == r
    decreases |queue|
  {
    if queue != [] {
      assert !Idle(queue[0], m);
      NothingGoes(r, queue[1..], m);
    }
  }

  lemma EvictLoses(r: Registry, rule: Rule, m: Moment, a: Attached, b: Attached)
    requires Inv(r) && a in r.engines && a !in Evict(r, rule, m).engines
    ensures Evictable(a, r.ttl, rule, m)
    ensures b in Evict(r, rule, m).engines && Evictable(b, r.ttl, rule, m) ==> a.touched < b.touched
  {
    EvictKeeps(r, rule, m);
    var t := Evict(r, rule, m).engines;
    assert t[0..] == t;
  }

  lemma CutHas(s: seq<Attached>, k: nat, a: Attached)
    requires k < |s| && a in s && a != s[k]
    ensures a in s[..k] + s[k + 1..]
  {
    assert s == s[..k] + [s[k]] + s[k + 1..];
  }

  lemma ClearedLoses(r: Registry, session: string, m: Moment, a: Attached, b: Attached)
    requires Inv(r) && a in r.engines && a !in Cleared(r, session, m).engines && a.session != session
    ensures Idle(a, m)
    ensures b in Cleared(r, session, m).engines && Idle(b, m) ==> a.touched < b.touched
  {
    GetFinds(r.engines, session);
    if Get(r.engines, session).Some? {
      var k: nat :| k < |r.engines| && r.engines[k] == Get(r.engines, session).value;
      TeardownRemoves(r, k, true, m);
      CutHas(r.engines, k, a);
    } else {
      EvictLoses(r, TotalCapacity, m, a, b);
    }
  }

  lemma EvictableIsIdle(a: Attached, ttl: nat, rule: Rule, m: Moment)
    ensures Evictable(a, ttl, rule, m) ==> Idle(a, m)
    ensures rule.IdleBound? && a.session != rule.keep && Idle(a, m) ==> Evictable(a, ttl, rule, m)
  {
  }

  // What an attachment leaves of the map.
  lemma AttachEngines(r: Registry, session: string, project: Option<string>, m: Moment)
    requires Inv(r)
    ensures var after := Attach(r, session, project, m).0.engines;
            var seated := Seated(Cleared(r, session, m), session, project, m);
            || after == r.engines
            || after == Cleared(r, session, m).engines
            || (Inv(seated) && after == Evict(seated, IdleBound(session), m).engines)
  {
    AttachKeeps(r, session, project, m);
  }

  lemma SeatedEngines(r: Registry, session: string, project: Option<string>, m: Moment, a: Attached)
    ensures a.session != session ==> (a in Seated(r, session, project, m).engines <==> a in r.engines)
  {
  }

  lemma EvictedFrom(r: Registry, rule: Rule, m: Moment, b: Attached)
    requires Inv(r) && b in Evict(r, rule, m).engines
    ensures b in r.engines
  {
    EvictKeeps(r, rule, m);
  }

  // Attaching evicts only idle sessions, those touched longest ago first.
  lemma AttachLoses(r: Registry, session: string, project: Option<string>, m: Moment, a: Attached, b: Attached)
    requires Inv(r) && a in r.engines && a.session != session
    requires a !in Attach(r, session, project, m).0.engines
    ensures Idle(a, m)
    ensures b in r.engines && b in Attach(r, session, project, m).0.engines && b.session != session && Idle(b, m)
            ==> a.touched < b.touched
  {
    hide *;
    AttachEngines(r, session, project, m);
    var r1 := Cleared(r, session, m);
    var seated := Seated(r1, session, project, m);
    var rule := IdleBound(session);
    if a !in r1.engines { ClearedLoses(r, session, m, a, b); }
    if Inv(seated) && Attach(r, session, project, m).0.engines == Evict(seated, rule, m).engines {
      SeatedEngines(r1, session, project, m, a);
      SeatedEngines(r1, session, project, m, b);
      EvictableIsIdle(a, seated.ttl, rule, m);
      EvictableIsIdle(b, seated.ttl, rule, m);
      if b in Evict(seated, rule, m).engines { EvictedFrom(seated, rule, m, b); }
      if a in r1.engines { EvictLoses(seated, rule, m, a, b); }
    }
  }

  lemma AttachingEvents(r: Registry, session: string, path: string, disposable: bool, m: Moment)
    requires CanHappen(r, FactoryResolved(session, path, disposable))
    ensures var r1 := EndPhase(r.(reservations := r.reservations - {session}), session, Ended);
            var after := Built(r, session, path, disposable, m).0;
            after.engines == r.engines || after.engines == Attach(r1, session, Some(path), m).0.engines
  {
  }

  // The session whose attachment an event replaces or ends, if it names one.
  function Named(e: Event): Option<string> {
    match e
    case AttachCalled(session, _) => Some(session)
    case FactoryResolved(session, _, _) => Some(session)
    case _ => None
  }

  // Making room takes idle sessions in least-recently-touched order.
  lemma LeastRecentlyTouchedGoFirst(r: Registry, e: Event, m: Moment, a: Attached, b: Attached)
    requires Reachable(r) && CanHappen(r, e)
    requires e.AttachCalled? || e.CreateCalled? || e.FactoryResolved?
    requires a in r.engines && a !in Step(r, e, m).engines && Named(e) != Some(a.session)
    ensures Idle(a, m)
    ensures b in r.engines && b in Step(r, e, m).engines && Named(e) != Some(b.session) && Idle(b, m) ==> a.touched < b.touched
  {
    hide *;
    ReachableInv(r);
    StepIs(r, e, m);
    match e
    case AttachCalled(session, project) =>
      NamedIs(e);
      AttachLoses(r, session, project, m, a, b);
    case CreateCalled(session, fingerprint) => CreateLoses(r, session, fingerprint, m, a, b);
    case FactoryResolved(session, path, disposable) =>
      NamedIs(e);
      ResolvedLoses(r, session, path, disposable, m, a, b);
  }

  lemma NamedIs(e: Event)
    ensures e.AttachCalled? || e.FactoryResolved? ==> Named(e) == Some(e.session)
  {
  }

  lemma CreateLoses(r: Registry, session: string, fingerprint: string, m: Moment, a: Attached, b: Attached)
    requires Inv(r) && a in r.engines && a !in Create(r, session, fingerprint, m).0.engines
    ensures Idle(a, m)
    ensures b in Create(r, session, fingerprint, m).0.engines && Idle(b, m) ==> a.touched < b.touched
  {
    CreateIs(r, session, fingerprint, m);
    EvictLoses(r, TotalCapacity, m, a, b);
  }

  lemma ResolvedLoses(r: Registry, session: string, path: string, disposable: bool, m: Moment, a: Attached, b: Attached)
    requires Inv(r) && CanHappen(r, FactoryResolved(session, path, disposable))
    requires a in r.engines && a.session != session && a !in Built(r, session, path, disposable, m).0.engines
    ensures Idle(a, m)
    ensures b in r.engines && b in Built(r, session, path, disposable, m).0.engines && b.session != session && Idle(b, m)
            ==> a.touched < b.touched
  {
    hide *;
    AttachingEvents(r, session, path, disposable, m);
    ResolvedIsLive(r, session, path, disposable, m);
    BuildingOf(r, session, path, disposable);
    UnreservedKeeps(r, session);
    EndPhaseIs(r, session);
    AttachLoses(EndPhase(r.(reservations := r.reservations - {session}), session, Ended), session, Some(path), m, a, b);
  }

  lemma ResolvedIsLive(r: Registry, session: string, path: string, disposable: bool, m: Moment)
    ensures Built(r, session, path, disposable, m).0.engines != r.engines ==> !r.disposed
  {
  }

  lemma BuiltLoses(r: Registry, session: string, path: string, disposable: bool, m: Moment, a: Attached)
    requires Reachable(r) && CanHappen(r, FactoryResolved(session, path, disposable))
    requires a in r.engines && a !in Built(r, session, path, disposable, m).0.engines
    ensures Idle(a, m)
  {
    AttachingEvents(r, session, path, disposable, m);
    GetFinds(r.engines, session);
    LeastRecentlyTouchedGoFirst(r, FactoryResolved(session, path, disposable), m, a, a);
  }

  // An engine that left the map is one whose disposal was just begun.
  lemma LeavingIsBegun(r: Registry, r1: Registry, engine: nat)
    requires Accounted(r) && Accounted(r1) && r.made <= r1.made
    requires Holds(r.engines, engine) && !Holds(r1.engines, engine)
    ensures engine in r1.begun && engine !in r.begun
  {
    assert engine < r.made;
  }

  lemma SameEntry(s: seq<Attached>, a: Attached, session: string)
    requires Tidy(s) && a in s && Present(s, session, a.engine)
    ensures a.session == session
  {
  }

  lemma ByMakingRoom(r: Registry, e: Event, m: Moment, a: Attached)
    requires Reachable(r) && CanHappen(r, e)
    requires e.AttachCalled? || e.CreateCalled? || e.FactoryResolved?
    requires a in r.engines && !Holds(Step(r, e, m).engines, a.engine)
    ensures (e.AttachCalled? && a.session == e.session) || Idle(a, m)
  {
    assert a !in Step(r, e, m).engines;
    if e.FactoryResolved? { BuiltLoses(r, e.session, e.path, e.disposable, m, a); }
    else if Named(e) != Some(a.session) { LeastRecentlyTouchedGoFirst(r, e, m, a, a); }
  }

  lemma BySweep(r: Registry, m: Moment, a: Attached)
    requires Inv(r) && a in r.engines && !Holds(Step(r, SweepFired, m).engines, a.engine)
    ensures Idle(a, m) && m.now - a.lastAccess >= r.ttl
  {
    EvictLoses(r, IdleSweep, m, a, a);
  }

  lemma ByRelease(r: Registry, session: string, m: Moment, a: Attached)
    requires Inv(r) && a in r.engines && !Holds(Step(r, ReleaseCalled(session), m).engines, a.engine)
    ensures a.session == session && a.engine !in m.busy
  {
    hide *;
    Inside(r);
    ReleaseIs(r, session, m);
    HoldsIt(r.engines, a);
    ReleaseKeeps(r, session, m);
    Inside(Release(r, session, m).0);
    LeavingIsBegun(r, Release(r, session, m).0, a.engine);
    GetFinds(r.engines, session);
    SameEngine(r.engines, a, Get(r.engines, session).value);
  }

  lemma ReleaseIs(r: Registry, session: string, m: Moment)
    ensures Step(r, ReleaseCalled(session), m) == Release(r, session, m).0
    ensures Release(r, session, m).0.made == r.made
    ensures Release(r, session, m).0.begun != r.begun ==>
      var found := Get(r.engines, session);
      found.Some? && found.value.engine !in m.busy && Release(r, session, m).0.begun == r.begun + [found.value.engine]
  {
  }

  lemma SameEngine(s: seq<Attached>, a: Attached, b: Attached)
    requires Tidy(s) && a in s && b in s && a.engine == b.engine
    ensures a == b
  {
  }

  lemma ByDetach(r: Registry, session: string, engine: nat, m: Moment, a: Attached)
    requires Inv(r) && CanHappen(r, DetachCalled(session, engine))
    requires a in r.engines && !Holds(Step(r, DetachCalled(session, engine), m).engines, a.engine)
    ensures a.session == session && a.engine == engine
  {
    TeardownKeeps(r, session, engine, true, m);
    LeavingIsBegun(r, ScheduleTeardown(r, session, engine, true, m), a.engine);
    SameEntry(r.engines, a, session);
  }

  lemma NotByUse(r: Registry, session: string, m: Moment, a: Attached)
    requires Inv(r) && a in r.engines
    ensures Holds(Step(r, Used(session), m).engines, a.engine)
  {
    UseKeeps(r, session, m);
    assert Holds(r.engines, a.engine);
    if !Holds(Use(r, session, m).engines, a.engine) { LeavingIsBegun(r, Use(r, session, m), a.engine); }
  }

  lemma NotOtherwise(r: Registry, e: Event, m: Moment, a: Attached)
    requires CanHappen(r, e) && a in r.engines
    requires e.FactoryRejected? || e.CreationEnded? || e.TeardownSettled? || e.TeardownTimedOut?
             || e.OrphanFinished? || e.DisposeFinished?
    ensures Holds(Step(r, e, m).engines, a.engine)
  {
  }

  // No event but a forced teardown of its own ends an attachment that is leased or busy.
  lemma OnlyIdleSessionsAreEvicted(r: Registry, e: Event, m: Moment, a: Attached)
    requires Reachable(r) && CanHappen(r, e)
    requires a in r.engines && !Holds(Step(r, e, m).engines, a.engine)
    ensures match e
      case AttachCalled(session, _) => a.session == session || Idle(a, m)
      case CreateCalled(_, _) => Idle(a, m)
      case FactoryResolved(_, _, _) => Idle(a, m)
      case SweepFired => Idle(a, m) && m.now - a.lastAccess >= r.ttl
      case ReleaseCalled(session) => a.session == session && a.engine !in m.busy
      case DetachCalled(session, engine) => a.session == session && a.engine == engine
      case DisposeCalled => true
      case _ => false
  {
    hide *;
    ReachableInv(r);
    Inside(r);
    match e
    case AttachCalled(session, project) => ByMakingRoom(r, e, m, a);
    case CreateCalled(session, fingerprint) => ByMakingRoom(r, e, m, a);
    case FactoryResolved(session, path, disposable) => ByMakingRoom(r, e, m, a);
    case SweepFired => BySweep(r, m, a);
    case ReleaseCalled(session) => ByRelease(r, session, m, a);
    case DetachCalled(session, engine) => ByDetach(r, session, engine, m, a);
    case Used(session) => NotByUse(r, session, m, a);
    case DisposeCalled =>
    case _ => NotOtherwise(r, e, m, a);
  }

  // Each attachment is torn down at most once, and none is lost: every engine made is
  // attached, or else its disposal was begun exactly once.
  lemma EachAttachmentIsTornDownAtMostOnce(r: Registry, n: nat)
    requires Reachable(r)
    ensures multiset(r.begun)[n] <= 1
    ensures n < r.made <==> (Holds(r.engines, n) || n in r.begun)
    ensures !(Holds(r.engines, n) && n in r.begun)
  {
    ReachableInv(r);
    OnceCounts(r.begun, n);
  }

  lemma {:induction false} OnceCounts(log: seq<nat>, n: nat)
    requires Once(log)
    ensures multiset(log)[n] == if n in log then 1 else 0
  {
    if log != [] {
      assert log == [log[0]] + log[1..];
      OnceCounts(log[1..], n);
    }
  }

  // After an attachment the idle bound holds, or all others are leased or busy; no more is
  // evicted than that takes, and never the session just attached.
  lemma AttachEnforcesIdleBound(r: Registry, session: string, project: Option<string>, m: Moment)
    requires Reachable(r) && Attach(r, session, project, m).1.Admitted?
    ensures var r1 := Attach(r, session, project, m).0;
            && Present(r1.engines, session, r.made)
            && (|r1.engines| <= r.maxIdle || forall a :: a in r1.engines && a.session != session ==> !Idle(a, m))
            && (|r1.engines| >= r.maxIdle || r1.engines == Seated(Cleared(r, session, m), session, project, m).engines)
  {
    hide *;
    ReachableInv(r);
    AttachKeeps(r, session, project, m);
    AttachSeats(r, session, project, m);
    ClearedKeeps(r, session, m);
    var r1 := Cleared(r, session, m);
    SameLimits(r, r1, session, project, m);
    var seated := Seated(r1, session, project, m);
    EvictKeeps(seated, IdleBound(session), m);
    IdleBoundHolds(seated, Evict(seated, IdleBound(session), m), session, m);
  }

  lemma SameLimits(r: Registry, r1: Registry, session: string, project: Option<string>, m: Moment)
    requires OnlyTeardowns(r, r1)
    ensures Seated(r1, session, project, m).maxIdle == r.maxIdle
  {
  }

  lemma IdleBoundHolds(r: Registry, r1: Registry, session: string, m: Moment)
    requires EvictsTo(r, r1, [], IdleBound(session), m)
    ensures |r1.engines| <= r.maxIdle || forall a :: a in r1.engines && a.session != session ==> !Idle(a, m)
    ensures |r1.engines| >= r.maxIdle || r1.engines == r.engines
  {
    assert OnlyTeardowns(r, r1);
    if |r1.engines| > r.maxIdle {
      forall a | a in r1.engines && a.session != session ensures !Idle(a, m) {
        var i :| 0 <= i < |r1.engines| && r1.engines[i] == a;
        assert !Evictable(r1.engines[i], r.ttl, IdleBound(session), m);
      }
    }
  }

  // A sweep removes exactly the attachments that are idle and were last used a lease ago.
  lemma SweepIsExact(r: Registry, m: Moment, a: Attached)
    requires Reachable(r)
    ensures a in Sweep(r, m).engines <==> a in r.engines && !(Idle(a, m) && m.now - a.lastAccess >= r.ttl)
  {
    ReachableInv(r);
    EvictKeeps(r, IdleSweep, m);
    var t := Sweep(r, m).engines;
    if a in t {
      var i :| 0 <= i < |t| && t[i] == a;
      assert !Evictable(t[i], r.ttl, IdleSweep, m);
    }
  }

  // The inventory stays bounded and, with the count of dropped entries, covers every teardown.
  lemma InventoryCoversTeardowns(r: Registry)
    requires Reachable(r)
    ensures |r.inventory| <= 128
    ensures r.dropped + |r.inventory| == |r.retired|
  {
    ReachableInv(r);
  }
}

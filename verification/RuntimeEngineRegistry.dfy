/**
 The registry as an object whose fields the methods reassign. Each method is one stretch
 between awaits and is proved to be the step of the same name of RegistryModel.
 */
module RuntimeEngineRegistry {
  import opened Base
  import opened RegistryModel
  import RegistrySteps

  const DEFAULT_MAX_TOTAL_RUNTIME_SESSIONS := 256
  const MAX_TOTAL_RUNTIME_SESSIONS := 2048

  lemma DisposeTurn(r: Registry, queue: seq<Attached>, m: Moment)
    ensures TeardownAll(r, queue, m) ==
      if queue == [] then r
      else TeardownAll(ScheduleTeardown(r, queue[0].session, queue[0].engine, true, m), queue[1..], m)
  {
  }

  lemma TeardownIs(r: Registry, session: string, engine: nat, force: bool, m: Moment)
    ensures ScheduleTeardown(r, session, engine, force, m) ==
      if engine in r.retired || (!force && engine in m.busy) then r
      else
        var pushed := r.inventory + [Cleanup(engine, Pending)];
        r.(retired := r.retired + {engine},
           engines := Without(r.engines, session, engine),
           inventory := Trimmed(pushed),
           dropped := r.dropped + (|pushed| - |Trimmed(pushed)|),
           teardowns := r.teardowns + {engine},
           begun := r.begun + [engine])
  {
  }

  lemma AttachIs(r: Registry, session: string, project: Option<string>, m: Moment)
    ensures RegistryModel.Attach(r, session, project, m) ==
      if r.disposed then (r, NotAttached(RegistryDisposed))
      else
        var previous := Get(r.engines, session);
        var (r1, error) := if previous.Some? then (ScheduleTeardown(r, session, previous.value.engine, true, m), None)
                           else Admission(r, m);
        if error.Some? then (r1, NotAttached(error.value))
        else (Evict(Seated(r1, session, project, m), IdleBound(session), m), Admitted(r1.made))
  {
  }

  lemma SeatedIs(r: Registry, session: string, project: Option<string>, m: Moment)
    ensures Seated(r, session, project, m) ==
      r.(engines := r.engines + [Attached(session, r.made, project, 0, m.now, r.touches)],
         made := r.made + 1, touches := r.touches + 1)
  {
  }

  class LiveRuntimeEngineRegistry {
    const maxIdle: nat
    const maxTotal: nat
    const ttl: nat
    const hasFactory: bool
    var engines: seq<Attached>
    var reservations: set<string>
    var creations: map<string, Creation>
    var retired: set<nat>
    var teardowns: set<nat>
    var discards: set<nat>
    var orphaned: set<nat>
    var inventory: seq<Cleanup>
    var dropped: nat
    var disposed: bool
    var made: nat
    var touches: nat
    var begun: seq<nat>

    ghost function State(): Registry
      reads this
    {
      Registry(maxIdle, maxTotal, ttl, hasFactory, engines, reservations, creations, retired, teardowns,
               discards, orphaned, inventory, dropped, disposed, made, touches, begun)
    }

    // None stands for an option that is not a safe integer, or not finite.
    constructor (maxIdleSessions: Option<int>, maxTotalSessions: Option<int>, idleTtlMs: Option<int>, hasFactory: bool)
      ensures State() == Empty(maxIdle, maxTotal, ttl, hasFactory)
      ensures maxIdle == if maxIdleSessions.None? then 256 else if maxIdleSessions.value < 1 then 1 else maxIdleSessions.value
      ensures maxTotalSessions.Some? ==>
                && (1 <= maxTotalSessions.value <= 2048 ==> maxTotal == maxTotalSessions.value)
                && (maxTotalSessions.value < 1 ==> maxTotal == 1)
                && (maxTotalSessions.value > 2048 ==> maxTotal == 2048)
      ensures maxTotalSessions.None? ==>
                && (maxIdle <= 256 ==> maxTotal == 256)
                && (256 <= maxIdle <= 2048 ==> maxTotal == maxIdle)
                && (maxIdle > 2048 ==> maxTotal == 2048)
      ensures ttl == if idleTtlMs.None? then 300000 else if idleTtlMs.value < 1000 then 1000 else idleTtlMs.value
    {
      var idle := if maxIdleSessions.Some? then Max(1, maxIdleSessions.value) else 256;
      maxIdle := idle;
      maxTotal := if maxTotalSessions.Some?
        then Max(1, if MAX_TOTAL_RUNTIME_SESSIONS < maxTotalSessions.value then MAX_TOTAL_RUNTIME_SESSIONS else maxTotalSessions.value)
        else Max(DEFAULT_MAX_TOTAL_RUNTIME_SESSIONS, if MAX_TOTAL_RUNTIME_SESSIONS < idle then MAX_TOTAL_RUNTIME_SESSIONS else idle);
      ttl := if idleTtlMs.Some? then Max(1000, idleTtlMs.value) else 300000;
      this.hasFactory := hasFactory;
      engines, reservations, creations, retired, teardowns, discards, orphaned := [], {}, map[], {}, {}, {}, {};
      inventory, dropped, disposed, made, touches, begun := [], 0, false, 0, 0, [];
    }

    // ---- teardown ------------------------------------------------------------------------

    method BoundCleanupInventory()
      modifies this`inventory, this`dropped
      ensures inventory == Trimmed(old(inventory))
      ensures dropped == old(dropped) + (|old(inventory)| - |inventory|)
    {
      while |inventory| > CLEANUP_BOUND
        invariant Trimmed(inventory) == Trimmed(old(inventory))
        invariant |inventory| <= |old(inventory)| && dropped == old(dropped) + (|old(inventory)| - |inventory|)
        decreases |inventory|
      {
        var completed := FirstWith(inventory, Completed);
        var failed := FirstWith(inventory, Failed);
        var removeAt := if completed < |inventory| then completed else if failed < |inventory| then failed else 0;
        inventory := inventory[..removeAt] + inventory[removeAt + 1..];
        dropped := dropped + 1;
      }
    }

    method ScheduleTeardown(session: string, engine: nat, force: bool, m: Moment)
      modifies this
      ensures State() == RegistryModel.ScheduleTeardown(old(State()), session, engine, force, m)
    {
      hide *;
      TeardownIs(State(), session, engine, force, m);
      StateIs();
      if engine in retired { return; }
      if !force && engine in m.busy { return; }
      retired := retired + {engine};
      engines := Without(engines, session, engine);
      inventory := inventory + [Cleanup(engine, Pending)];
      assert inventory == old(inventory) + [Cleanup(engine, Pending)];
      BoundCleanupInventory();
      teardowns := teardowns + {engine};
      begun := begun + [engine];
      StateIs();
    }

    lemma StateIs()
      ensures State() ==
              Registry(maxIdle, maxTotal, ttl, hasFactory, engines, reservations, creations, retired, teardowns,
                       discards, orphaned, inventory, dropped, disposed, made, touches, begun)
    {
    }

    method TeardownSettled(engine: nat, clean: bool)
      modifies this
      ensures State() == Settled(old(State()), engine, clean)
    {
      inventory := Restatus(inventory, engine, if clean then Completed else Failed);
      teardowns := teardowns - {engine};
      discards := discards - {engine};
    }

    method TeardownTimedOut(engine: nat)
      modifies this
      ensures State() == TimedOut(old(State()), engine)
    {
      orphaned := orphaned + {engine};
      TeardownSettled(engine, false);
    }

    method OrphanFinished(engine: nat)
      modifies this`orphaned
      ensures State() == OrphanSettled(old(State()), engine)
    {
      orphaned := orphaned - {engine};
    }

    // ---- eviction ------------------------------------------------------------------------

    method EnforceIdleBound(exclude: string, m: Moment)
      modifies this
      ensures State() == Evict(old(State()), IdleBound(exclude), m)
    {
      ghost var rule := IdleBound(exclude);
      RegistrySteps.Turn(State(), engines, rule, m);
      if |engines| <= maxIdle { return; }
      var queue := engines;
      while queue != []
        invariant Evict(old(State()), rule, m) == EvictFrom(State(), queue, rule, m)
        decreases |queue|
      {
        RegistrySteps.Turn(State(), queue, rule, m);
        if |engines| <= maxIdle { return; }
        var a := queue[0];
        queue := queue[1..];
        if !(a.session == exclude || a.lease > m.now || a.engine in m.busy) {
          ScheduleTeardown(a.session, a.engine, false, m);
        }
      }
    }

    method EvictIdleForTotalCapacity(m: Moment)
      modifies this
      ensures State() == Evict(old(State()), TotalCapacity, m)
    {
      RegistrySteps.Turn(State(), engines, TotalCapacity, m);
      if |engines| + |reservations| < maxTotal { return; }
      var queue := engines;
      while queue != []
        invariant Evict(old(State()), TotalCapacity, m) == EvictFrom(State(), queue, TotalCapacity, m)
        decreases |queue|
      {
        RegistrySteps.Turn(State(), queue, TotalCapacity, m);
        if |engines| + |reservations| < maxTotal { return; }
        var a := queue[0];
        queue := queue[1..];
        if !(a.lease > m.now || a.engine in m.busy) {
          ScheduleTeardown(a.session, a.engine, false, m);
        }
      }
    }

    method SweepIdle(m: Moment)
      modifies this
      ensures State() == Sweep(old(State()), m)
    {
      var queue := engines;
      while queue != []
        invariant Sweep(old(State()), m) == EvictFrom(State(), queue, IdleSweep, m)
        decreases |queue|
      {
        RegistrySteps.Turn(State(), queue, IdleSweep, m);
        var a := queue[0];
        queue := queue[1..];
        if m.now - a.lastAccess >= ttl && a.lease <= m.now && a.engine !in m.busy {
          ScheduleTeardown(a.session, a.engine, false, m);
        }
      }
    }

    // ---- admission, attachment and creation ----------------------------------------------

    method NewSessionAdmissionError(m: Moment) returns (error: Option<Refusal>)
      modifies this
      ensures (State(), error) == Admission(old(State()), m)
    {
      if orphaned != {} { return Some(Quarantined); }
      EvictIdleForTotalCapacity(m);
      error := if |engines| + |reservations| < maxTotal then None else Some(AtCapacity);
    }

    method Attach(session: string, project: Option<string>, m: Moment) returns (reply: AttachReply)
      modifies this
      ensures (State(), reply) == RegistryModel.Attach(old(State()), session, project, m)
    {
      hide *;
      AttachIs(State(), session, project, m);
      StateIs();
      if disposed { return NotAttached(RegistryDisposed); }
      var previous := Get(engines, session);
      if previous.None? {
        var error := NewSessionAdmissionError(m);
        if error.Some? { return NotAttached(error.value); }
      } else {
        ScheduleTeardown(session, previous.value.engine, true, m);
      }
      SeatedIs(State(), session, project, m);
      StateIs();
      reply := Admitted(made);
      engines := engines + [Attached(session, made, project, 0, m.now, touches)];
      made := made + 1;
      touches := touches + 1;
      StateIs();
      EnforceIdleBound(session, m);
    }

    method Create(session: string, fingerprint: string, m: Moment) returns (reply: CreateReply)
      modifies this
      ensures (State(), reply) == RegistryModel.Create(old(State()), session, fingerprint, m)
    {
      if disposed { return NotStarted(RegistryDisposed); }
      if session in creations {
        return if creations[session].fingerprint == fingerprint then Joined else Conflicting;
      }
      if |creations| >= MAX_PENDING_SESSION_CREATIONS { return TooManyPending; }
      var reserved := Get(engines, session).None? && hasFactory;
      if reserved {
        var error := NewSessionAdmissionError(m);
        if error.Some? { return NotStarted(error.value); }
        reservations := reservations + {session};
      }
      creations := creations[session := Creation(fingerprint, reserved, if reserved then Building else Ended)];
      reply := Started;
    }

    method EndPhase(session: string, phase: Phase)
      modifies this`creations
      ensures State() == RegistryModel.EndPhase(old(State()), session, phase)
    {
      if session in creations {
        creations := creations[session := creations[session].(phase := phase)];
      }
    }

    method DisposeUnattached(session: string, disposable: bool)
      modifies this
      ensures State() == Discard(old(State()), session, disposable)
    {
      if !disposable {
        EndPhase(session, Ended);
        return;
      }
      var engine := made;
      made := made + 1;
      begun := begun + [engine];
      discards := discards + {engine};
      EndPhase(session, Discarding(engine));
    }

    method FactoryResolved(session: string, path: string, disposable: bool, m: Moment) returns (reply: Option<AttachReply>)
      modifies this
      ensures (State(), reply) == Built(old(State()), session, path, disposable, m)
    {
      if disposed || Get(engines, session).Some? {
        DisposeUnattached(session, disposable);
        return None;
      }
      reservations := reservations - {session};
      EndPhase(session, Ended);
      var outcome := Attach(session, Some(path), m);
      if !outcome.Admitted? { DisposeUnattached(session, disposable); }
      reply := Some(outcome);
    }

    method CreationEnded(session: string)
      requires session in creations
      modifies this
      ensures State() == Finally(old(State()), session)
    {
      if creations[session].reserved { reservations := reservations - {session}; }
      creations := creations - {session};
    }

    // ---- use, release and shutdown -------------------------------------------------------

    method Touch(session: string, m: Moment)
      modifies this
      ensures State() == Use(old(State()), session, m)
    {
      var found := Get(engines, session);
      if found.None? { return; }
      var a := found.value;
      engines := Without(engines, a.session, a.engine)
      + [a.(lastAccess := m.now, lease := m.now + ttl, touched := touches)];
      touches := touches + 1;
    }

    method ReleaseSession(session: string, m: Moment) returns (released: bool)
      modifies this
      ensures (State(), released) == Release(old(State()), session, m)
    {
      var found := Get(engines, session);
      if found.None? { return false; }
      engines := Unlease(engines, found.value.engine);
      if found.value.engine in m.busy { return false; }
      ScheduleTeardown(session, found.value.engine, false, m);
      released := true;
    }

    method DisposeAll(m: Moment)
      modifies this
      ensures State() == RegistryModel.DisposeAll(old(State()), m)
    {
      disposed := true;
      var queue := engines;
      while queue != []
        invariant RegistryModel.DisposeAll(old(State()), m) == TeardownAll(State(), queue, m)
        decreases |queue|
      {
        DisposeTurn(State(), queue, m);
        ScheduleTeardown(queue[0].session, queue[0].engine, true, m);
        queue := queue[1..];
      }
    }

    // The end of disposeAll, however it went: what was still being created is forgotten.
    method DisposalFinished()
      modifies this
      ensures State() == DisposeEnd(old(State()))
    {
      creations := map[];
      reservations := {};
    }
  }
}

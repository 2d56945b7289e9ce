/**
 The registry of attached engines: capacity reservations, eviction in least-recently-touched
 order, teardown and quarantine. Each step is one stretch between awaits; clock readings and
 the set of engines with an active mutation are inputs of every step.
 */
module RegistryModel {
  import opened Base

  const MAX_PENDING_SESSION_CREATIONS := 256
  const CLEANUP_BOUND := 128

  // One attachment. engine is its identity; touched numbers attachments and touches, so it
  // orders them by recency even where two clock readings agree or the clock steps back.
  datatype Attached = Attached(session: string, engine: nat, project: Option<string>,
                               lease: int, lastAccess: int, touched: nat)

  datatype CleanupStatus = Pending | Completed | Failed
  datatype Cleanup = Cleanup(engine: nat, status: CleanupStatus)

  datatype Phase = Building | Discarding(engine: nat) | Ended
  datatype Creation = Creation(fingerprint: string, reserved: bool, phase: Phase)

  // What the registry reads of the world during one step.
  datatype Moment = Moment(now: int, busy: set<nat>)

  // engines is the Map in insertion order. made counts attachments and discarded builds;
  // begun is the log of disposals in the order they were started.
  datatype Registry = Registry(
    maxIdle: nat, maxTotal: nat, ttl: nat, hasFactory: bool,
    engines: seq<Attached>, reservations: set<string>, creations: map<string, Creation>,
    retired: set<nat>, teardowns: set<nat>, discards: set<nat>, orphaned: set<nat>,
    inventory: seq<Cleanup>, dropped: nat, disposed: bool,
    made: nat, touches: nat, begun: seq<nat>)

  datatype Refusal = RegistryDisposed | Quarantined | AtCapacity
  datatype AttachReply = Admitted(engine: nat) | NotAttached(why: Refusal)
  datatype CreateReply = Started | Joined | Conflicting | TooManyPending | NotStarted(why: Refusal)

  function Empty(maxIdle: nat, maxTotal: nat, ttl: nat, hasFactory: bool): Registry {
    Registry(maxIdle, maxTotal, ttl, hasFactory, [], {}, map[], {}, {}, {}, {}, [], 0, false, 0, 0, [])
  }

  // ---- the ordered map -----------------------------------------------------------------

  function Get(s: seq<Attached>, session: string): Option<Attached> {
    if s == [] then None else if s[0].session == session then Some(s[0]) else Get(s[1..], session)
  }

  function Without(s: seq<Attached>, session: string, engine: nat): seq<Attached> {
    if s == [] then []
    else if s[0].session == session && s[0].engine == engine then s[1..]
    else [s[0]] + Without(s[1..], session, engine)
  }

  function Unlease(s: seq<Attached>, engine: nat): seq<Attached> {
    if s == [] then []
    else [if s[0].engine == engine then s[0].(lease := 0) else s[0]] + Unlease(s[1..], engine)
  }

  // ---- the cleanup inventory -----------------------------------------------------------

  function FirstWith(inv: seq<Cleanup>, status: CleanupStatus): nat {
    if inv == [] || inv[0].status == status then 0 else 1 + FirstWith(inv[1..], status)
  }

  // The entry given up: the oldest completed one, else the oldest failed one, else the oldest.
  function RemoveAt(inv: seq<Cleanup>): nat {
    var completed := FirstWith(inv, Completed);
    var failed := FirstWith(inv, Failed);
    if completed < |inv| then completed else if failed < |inv| then failed else 0
  }

  function Trimmed(inv: seq<Cleanup>): (t: seq<Cleanup>)
    ensures |t| <= |inv|
    ensures |t| <= CLEANUP_BOUND || t == inv
    decreases |inv|
  {
    var at := RemoveAt(inv);
    if |inv| <= CLEANUP_BOUND || at >= |inv| then inv else Trimmed(inv[..at] + inv[at + 1..])
  }

  function Restatus(inv: seq<Cleanup>, engine: nat, status: CleanupStatus): seq<Cleanup> {
    if inv == [] then []
    else [if inv[0].engine == engine then inv[0].(status := status) else inv[0]] + Restatus(inv[1..], engine, status)
  }

  // ---- teardown and eviction -----------------------------------------------------------

  function ScheduleTeardown(r: Registry, session: string, engine: nat, force: bool, m: Moment): Registry {
    if engine in r.retired || (!force && engine in m.busy) then r
    else
      var pushed := r.inventory + [Cleanup(engine, Pending)];
      r.(retired := r.retired + {engine},
         engines := Without(r.engines, session, engine),
         inventory := Trimmed(pushed),
         dropped := r.dropped + (|pushed| - |Trimmed(pushed)|),
         teardowns := r.teardowns + {engine},
         begun := r.begun + [engine])
  }

  datatype Rule = IdleBound(keep: string) | TotalCapacity | IdleSweep

  predicate Enough(r: Registry, rule: Rule) {
    match rule
    case IdleBound(_) => |r.engines| <= r.maxIdle
    case TotalCapacity => |r.engines| + |r.reservations| < r.maxTotal
    case IdleSweep => false
  }

  predicate Evictable(a: Attached, ttl: nat, rule: Rule, m: Moment) {
    && a.lease <= m.now
    && a.engine !in m.busy
    && (rule.IdleBound? ==> a.session != rule.keep)
    && (rule.IdleSweep? ==> m.now - a.lastAccess >= ttl)
  }

  function EvictFrom(r: Registry, queue: seq<Attached>, rule: Rule, m: Moment): Registry
    decreases |queue|
  {
    if queue == [] || Enough(r, rule) then r
    else if !Evictable(queue[0], r.ttl, rule, m) then EvictFrom(r, queue[1..], rule, m)
    else EvictFrom(ScheduleTeardown(r, queue[0].session, queue[0].engine, false, m), queue[1..], rule, m)
  }

  function Evict(r: Registry, rule: Rule, m: Moment): Registry {
    EvictFrom(r, r.engines, rule, m)
  }

  // ---- admission, attachment and creation ----------------------------------------------

  function Admission(r: Registry, m: Moment): (Registry, Option<Refusal>) {
    if r.orphaned != {} then (r, Some(Quarantined))
    else
      var r1 := Evict(r, TotalCapacity, m);
      (r1, if |r1.engines| + |r1.reservations| < r1.maxTotal then None else Some(AtCapacity))
  }

  function Seated(r: Registry, session: string, project: Option<string>, m: Moment): Registry {
    r.(engines := r.engines + [Attached(session, r.made, project, 0, m.now, r.touches)],
       made := r.made + 1, touches := r.touches + 1)
  }

  function Attach(r: Registry, session: string, project: Option<string>, m: Moment): (Registry, AttachReply) {
    if r.disposed then (r, NotAttached(RegistryDisposed))
    else
      var previous := Get(r.engines, session);
      if previous.Some? then
        var r1 := ScheduleTeardown(r, session, previous.value.engine, true, m);
        (Evict(Seated(r1, session, project, m), IdleBound(session), m), Admitted(r1.made))
      else
        var (r1, error) := Admission(r, m);
        if error.Some? then (r1, NotAttached(error.value))
        else (Evict(Seated(r1, session, project, m), IdleBound(session), m), Admitted(r1.made))
  }

  function Create(r: Registry, session: string, fingerprint: string, m: Moment): (Registry, CreateReply) {
    if r.disposed then (r, NotStarted(RegistryDisposed))
    else if session in r.creations then
      (r, if r.creations[session].fingerprint == fingerprint then Joined else Conflicting)
    else if |r.creations| >= MAX_PENDING_SESSION_CREATIONS then (r, TooManyPending)
    else if Get(r.engines, session).Some? || !r.hasFactory then
      (r.(creations := r.creations[session := Creation(fingerprint, false, Ended)]), Started)
    else
      var (r1, error) := Admission(r, m);
      if error.Some? then (r1, NotStarted(error.value))
      else
        (r1.(reservations := r1.reservations + {session},
             creations := r1.creations[session := Creation(fingerprint, true, Building)]), Started)
  }

  function EndPhase(r: Registry, session: string, phase: Phase): Registry {
    if session in r.creations
    then r.(creations := r.creations[session := r.creations[session].(phase := phase)])
    else r
  }

  // A built engine that is not attached is disposed of, if it can be.
  function Discard(r: Registry, session: string, disposable: bool): Registry {
    if !disposable then EndPhase(r, session, Ended)
    else EndPhase(r.(made := r.made + 1, begun := r.begun + [r.made], discards := r.discards + {r.made}),
                  session, Discarding(r.made))
  }

  // The factory's promise resolves.
  function Built(r: Registry, session: string, project: string, disposable: bool, m: Moment): (Registry, Option<AttachReply>) {
    if r.disposed || Get(r.engines, session).Some? then (Discard(r, session, disposable), None)
    else
      var r1 := EndPhase(r.(reservations := r.reservations - {session}), session, Ended);
      var (r2, reply) := Attach(r1, session, Some(project), m);
      (if reply.Admitted? then r2 else Discard(r2, session, disposable), Some(reply))
  }

  function Finally(r: Registry, session: string): Registry
    requires session in r.creations
  {
    r.(reservations := if r.creations[session].reserved then r.reservations - {session} else r.reservations,
       creations := r.creations - {session})
  }

  // ---- use and release -----------------------------------------------------------------

  function Touch(r: Registry, a: Attached, m: Moment): Registry {
    var touched := a.(lastAccess := m.now, lease := m.now + r.ttl, touched := r.touches);
    r.(engines := Without(r.engines, a.session, a.engine) + [touched], touches := r.touches + 1)
  }

  function Use(r: Registry, session: string, m: Moment): Registry {
    var found := Get(r.engines, session);
    if found.None? then r else Touch(r, found.value, m)
  }

  function Release(r: Registry, session: string, m: Moment): (Registry, bool) {
    var found := Get(r.engines, session);
    if found.None? then (r, false)
    else
      var r1 := r.(engines := Unlease(r.engines, found.value.engine));
      if found.value.engine in m.busy then (r1, false)
      else (ScheduleTeardown(r1, session, found.value.engine, false, m), true)
  }

  function Sweep(r: Registry, m: Moment): Registry {
    Evict(r, IdleSweep, m)
  }

  // ---- teardown outcomes and shutdown --------------------------------------------------

  function Settled(r: Registry, engine: nat, clean: bool): Registry {
    r.(teardowns := r.teardowns - {engine}, discards := r.discards - {engine},
       inventory := Restatus(r.inventory, engine, if clean then Completed else Failed))
  }

  function TimedOut(r: Registry, engine: nat): Registry {
    Settled(r, engine, false).(orphaned := r.orphaned + {engine})
  }

  function OrphanSettled(r: Registry, engine: nat): Registry {
    r.(orphaned := r.orphaned - {engine})
  }

  function TeardownAll(r: Registry, queue: seq<Attached>, m: Moment): Registry
    decreases |queue|
  {
    if queue == [] then r
    else TeardownAll(ScheduleTeardown(r, queue[0].session, queue[0].engine, true, m), queue[1..], m)
  }

  function DisposeAll(r: Registry, m: Moment): Registry {
    TeardownAll(r.(disposed := true), r.engines, m)
  }

  function DisposeEnd(r: Registry): Registry {
    r.(creations := map[], reservations := {})
  }

  // ---- the transition system -----------------------------------------------------------

  datatype Event =
    | AttachCalled(session: string, project: Option<string>)
    | DetachCalled(session: string, engine: nat)
    | CreateCalled(session: string, fingerprint: string)
    | FactoryResolved(session: string, path: string, disposable: bool)
    | FactoryRejected(session: string)
    | CreationEnded(session: string)
    | Used(session: string)
    | ReleaseCalled(session: string)
    | SweepFired
    | TeardownSettled(engine: nat, clean: bool)
    | TeardownTimedOut(engine: nat)
    | OrphanFinished(engine: nat)
    | DisposeCalled
    | DisposeFinished

  predicate CanHappen(r: Registry, e: Event) {
    match e
    case AttachCalled(_, _) => true
    // the closure returned by attach is called with its own attachment
    case DetachCalled(session, engine) =>
      engine in r.retired || (exists a :: a in r.engines && a.session == session && a.engine == engine)
    case CreateCalled(_, _) => true
    case FactoryResolved(session, _, _) =>
      if session in r.creations then r.creations[session].phase.Building? else r.disposed
    case FactoryRejected(session) => session in r.creations && r.creations[session].phase.Building?
    case CreationEnded(session) =>
      && session in r.creations
      && !r.creations[session].phase.Building?
      && (r.creations[session].phase.Discarding? ==> r.creations[session].phase.engine !in r.discards)
    case Used(_) => true
    case ReleaseCalled(_) => true
    case SweepFired => true
    case TeardownSettled(engine, _) => engine in r.teardowns || engine in r.discards
    case TeardownTimedOut(engine) => engine in r.teardowns || engine in r.discards
    case OrphanFinished(engine) => engine in r.orphaned
    case DisposeCalled => true
    case DisposeFinished => r.disposed
  }

  function Step(r: Registry, e: Event, m: Moment): Registry
    requires CanHappen(r, e)
  {
    match e
    case AttachCalled(session, project) => Attach(r, session, project, m).0
    case DetachCalled(session, engine) => ScheduleTeardown(r, session, engine, true, m)
    case CreateCalled(session, fingerprint) => Create(r, session, fingerprint, m).0
    case FactoryResolved(session, path, disposable) => Built(r, session, path, disposable, m).0
    case FactoryRejected(session) => EndPhase(r, session, Ended)
    case CreationEnded(session) => Finally(r, session)
    case Used(session) => Use(r, session, m)
    case ReleaseCalled(session) => Release(r, session, m).0
    case SweepFired => Sweep(r, m)
    case TeardownSettled(engine, clean) => Settled(r, engine, clean)
    case TeardownTimedOut(engine) => TimedOut(r, engine)
    case OrphanFinished(engine) => OrphanSettled(r, engine)
    case DisposeCalled => DisposeAll(r, m)
    case DisposeFinished => DisposeEnd(r)
  }

  predicate Legal(r: Registry, run: seq<(Event, Moment)>)
    decreases |run|
  {
    run == [] || (CanHappen(r, run[0].0) && Legal(Step(r, run[0].0, run[0].1), run[1..]))
  }

  function After(r: Registry, run: seq<(Event, Moment)>): Registry
    requires Legal(r, run)
    decreases |run|
  {
    if run == [] then r else After(Step(r, run[0].0, run[0].1), run[1..])
  }
}

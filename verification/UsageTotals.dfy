/**
 Usage events and the four aggregate tables kept beside them. Token counters only:
 every total is the sum of the recorded events in its scope.
 */
module UsageTotals {
  import opened Base

  datatype Counters = Counters(input: nat, output: nat, cacheRead: nat, cacheWrite: nat) {
    function Plus(c: Counters): Counters {
      Counters(input + c.input, output + c.output, cacheRead + c.cacheRead, cacheWrite + c.cacheWrite)
    }

    predicate AtMost(c: Counters) {
      input <= c.input && output <= c.output && cacheRead <= c.cacheRead && cacheWrite <= c.cacheWrite
    }

    predicate Safe() {
      && input <= MAX_SAFE_INTEGER && output <= MAX_SAFE_INTEGER
      && cacheRead <= MAX_SAFE_INTEGER && cacheWrite <= MAX_SAFE_INTEGER
    }
  }

  const ZERO := Counters(0, 0, 0, 0)

  datatype Route = Route(provider: string, model: string)
  datatype EventId = EventId(session: string, event: string)
  datatype UsageEvent = UsageEvent(main: Option<string>, agent: Option<string>, route: Route, counters: Counters)
  datatype MainKey = MainKey(session: string, main: string)
  datatype AgentKey = AgentKey(session: string, agent: string)
  datatype RouteKey = RouteKey(session: string, route: Route)

  datatype Usage = Usage(
    events: map<EventId, UsageEvent>,
    bySession: map<string, Counters>,
    byMain: map<MainKey, Counters>,
    byAgent: map<AgentKey, Counters>,
    byRoute: map<RouteKey, Counters>)

  const EMPTY := Usage(map[], map[], map[], map[], map[])

  datatype Outcome = Recorded | Duplicate | ScopeMismatch | Overflow

  // ---- recording ----------------------------------------------------------------------

  function Get<K>(m: map<K, Counters>, k: K): Counters {
    if k in m then m[k] else ZERO
  }

  predicate CanAccumulate<K>(m: map<K, Counters>, k: K, c: Counters) {
    k in m ==>
      && c.input <= MAX_SAFE_INTEGER - m[k].input && c.output <= MAX_SAFE_INTEGER - m[k].output
      && c.cacheRead <= MAX_SAFE_INTEGER - m[k].cacheRead && c.cacheWrite <= MAX_SAFE_INTEGER - m[k].cacheWrite
  }

  function Upsert<K>(m: map<K, Counters>, k: K, c: Counters): map<K, Counters> {
    m[k := if k in m then m[k].Plus(c) else c]
  }

  function RecordUsage(u: Usage, id: EventId, e: UsageEvent): (Usage, Outcome) {
    if id in u.events then (u, if u.events[id] == e then Duplicate else ScopeMismatch)
    else if !CanAccumulate(u.bySession, id.session, e.counters)
         || (e.main.Some? && !CanAccumulate(u.byMain, MainKey(id.session, e.main.value), e.counters))
         || (e.agent.Some? && !CanAccumulate(u.byAgent, AgentKey(id.session, e.agent.value), e.counters))
         || !CanAccumulate(u.byRoute, RouteKey(id.session, e.route), e.counters)
    then (u, Overflow)
    else
      (Usage(u.events[id := e],
             Upsert(u.bySession, id.session, e.counters),
             if e.main.Some? then Upsert(u.byMain, MainKey(id.session, e.main.value), e.counters) else u.byMain,
             if e.agent.Some? then Upsert(u.byAgent, AgentKey(id.session, e.agent.value), e.counters) else u.byAgent,
             Upsert(u.byRoute, RouteKey(id.session, e.route), e.counters)),
       Recorded)
  }

  datatype Call = Call(id: EventId, event: UsageEvent)

  function RecordAll(u: Usage, calls: seq<Call>): Usage
    decreases |calls|
  {
    if calls == [] then u else RecordAll(RecordUsage(u, calls[0].id, calls[0].event).0, calls[1..])
  }

  // ---- sums over finite maps ------------------------------------------------------------

  ghost function Sum<K>(m: map<K, Counters>, keys: set<K>): Counters
    requires keys <= m.Keys
  {
    if keys == {} then ZERO
    else
      var k :| k in keys;
      m[k].Plus(Sum(m, keys - {k}))
  }

  lemma {:induction false} SumTakes<K>(m: map<K, Counters>, keys: set<K>, k: K)
    requires keys <= m.Keys && k in keys
    ensures Sum(m, keys) == m[k].Plus(Sum(m, keys - {k}))
    decreases keys
  {
    var p :| p in keys && Sum(m, keys) == m[p].Plus(Sum(m, keys - {p}));
    if p != k {
      SumTakes(m, keys - {p}, k);
      SumTakes(m, keys - {k}, p);
      var rest := keys - {p} - {k};
      assert rest == keys - {k} - {p};
      assert m[p].Plus(m[k].Plus(Sum(m, rest))) == m[k].Plus(m[p].Plus(Sum(m, rest)));
    }
  }

  lemma SumGains<K>(m: map<K, Counters>, keys: set<K>, k: K)
    requires keys <= m.Keys && k in m && k !in keys
    ensures Sum(m, keys + {k}) == Sum(m, keys).Plus(m[k])
  {
    SumTakes(m, keys + {k}, k);
    assert keys + {k} - {k} == keys;
  }

  lemma {:induction false} SumAgrees<K>(m: map<K, Counters>, n: map<K, Counters>, keys: set<K>)
    requires keys <= m.Keys && keys <= n.Keys && forall k :: k in keys ==> m[k] == n[k]
    ensures Sum(m, keys) == Sum(n, keys)
    decreases keys
  {
    if keys != {} {
      var k :| k in keys;
      SumTakes(m, keys, k);
      SumTakes(n, keys, k);
      SumAgrees(m, n, keys - {k});
    }
  }

  lemma {:induction false} SumOfPart<K>(m: map<K, Counters>, part: set<K>, keys: set<K>)
    requires part <= keys <= m.Keys
    ensures Sum(m, part).AtMost(Sum(m, keys))
    decreases keys
  {
    if part != {} {
      var k :| k in part;
      SumTakes(m, keys, k);
      SumTakes(m, part, k);
      SumOfPart(m, part - {k}, keys - {k});
    }
  }

  // ---- scopes -----------------------------------------------------------------------------

  datatype Scope =
    | OfSession(session: string)
    | OfMain(session: string, main: string)
    | OfAgent(session: string, agent: string)
    | OfRoute(session: string, route: Route)

  predicate InScope(scope: Scope, id: EventId, e: UsageEvent) {
    && id.session == scope.session
    && match scope
       case OfSession(_) => true
       case OfMain(_, main) => e.main == Some(main)
       case OfAgent(_, agent) => e.agent == Some(agent)
       case OfRoute(_, route) => e.route == route
  }

  function Members(events: map<EventId, UsageEvent>, scope: Scope): set<EventId> {
    set id | id in events && InScope(scope, id, events[id])
  }

  function Costs(events: map<EventId, UsageEvent>): map<EventId, Counters> {
    map id | id in events :: events[id].counters
  }

  /** What the table of the scope shows. */
  function TotalOf(u: Usage, scope: Scope): Counters {
    match scope
    case OfSession(s) => Get(u.bySession, s)
    case OfMain(s, m) => Get(u.byMain, MainKey(s, m))
    case OfAgent(s, a) => Get(u.byAgent, AgentKey(s, a))
    case OfRoute(s, r) => Get(u.byRoute, RouteKey(s, r))
  }

  ghost function SumOf(events: map<EventId, UsageEvent>, scope: Scope): Counters {
    Sum(Costs(events), Members(events, scope))
  }

  function RoutesOf(u: Usage, session: string): set<RouteKey> {
    set k | k in u.byRoute && k.session == session
  }

  ghost predicate Conserved(u: Usage) {
    && (forall scope :: TotalOf(u, scope) == SumOf(u.events, scope))
    && (forall s :: Get(u.bySession, s).Safe())
    && (forall s :: Sum(u.byRoute, RoutesOf(u, s)) == Get(u.bySession, s))
  }

  /** The session total bounds every narrower total of the session. */
  lemma NarrowerIsSmaller(u: Usage, scope: Scope)
    requires Conserved(u)
    ensures TotalOf(u, scope).AtMost(Get(u.bySession, scope.session))
    ensures TotalOf(u, scope).Safe()
  {
    assert TotalOf(u, OfSession(scope.session)) == SumOf(u.events, OfSession(scope.session));
    SumOfPart(Costs(u.events), Members(u.events, scope), Members(u.events, OfSession(scope.session)));
  }

  /** The session-level overflow check alone implies the three narrower ones. */
  lemma SessionCheckSuffices(u: Usage, id: EventId, e: UsageEvent)
    requires Conserved(u) && e.counters.Safe() && CanAccumulate(u.bySession, id.session, e.counters)
    ensures forall m :: CanAccumulate(u.byMain, MainKey(id.session, m), e.counters)
    ensures forall a :: CanAccumulate(u.byAgent, AgentKey(id.session, a), e.counters)
    ensures forall r :: CanAccumulate(u.byRoute, RouteKey(id.session, r), e.counters)
  {
    forall m ensures CanAccumulate(u.byMain, MainKey(id.session, m), e.counters) {
      NarrowerIsSmaller(u, OfMain(id.session, m));
    }
    forall a ensures CanAccumulate(u.byAgent, AgentKey(id.session, a), e.counters) {
      NarrowerIsSmaller(u, OfAgent(id.session, a));
    }
    forall r ensures CanAccumulate(u.byRoute, RouteKey(id.session, r), e.counters) {
      NarrowerIsSmaller(u, OfRoute(id.session, r));
    }
  }

  lemma NewEventSums(events: map<EventId, UsageEvent>, id: EventId, e: UsageEvent, scope: Scope)
    requires id !in events
    ensures SumOf(events[id := e], scope)
            == if InScope(scope, id, e) then SumOf(events, scope).Plus(e.counters) else SumOf(events, scope)
  {
    var more := events[id := e];
    var old_ := Members(events, scope);
    SumAgrees(Costs(events), Costs(more), old_);
    if InScope(scope, id, e) {
      assert Members(more, scope) == old_ + {id};
      SumGains(Costs(more), old_, id);
    } else {
      assert Members(more, scope) == old_;
    }
  }

  lemma NewRouteTotals(u: Usage, v: Usage, k: RouteKey, c: Counters, session: string)
    requires v.byRoute == Upsert(u.byRoute, k, c)
    ensures Sum(v.byRoute, RoutesOf(v, session))
            == if k.session == session then Sum(u.byRoute, RoutesOf(u, session)).Plus(c)
               else Sum(u.byRoute, RoutesOf(u, session))
  {
    var before, after := RoutesOf(u, session), RoutesOf(v, session);
    SumAgrees(u.byRoute, v.byRoute, before - {k});
    if k.session != session {
      assert before == after == before - {k};
    } else {
      assert after - {k} == before - {k};
      SumTakes(v.byRoute, after, k);
      if k in u.byRoute { SumTakes(u.byRoute, before, k); } else { assert before - {k} == before; }
    }
  }

  lemma RecordMovesTotals(u: Usage, id: EventId, e: UsageEvent, scope: Scope)
    requires RecordUsage(u, id, e).1.Recorded?
    ensures TotalOf(RecordUsage(u, id, e).0, scope)
            == if InScope(scope, id, e) then TotalOf(u, scope).Plus(e.counters) else TotalOf(u, scope)
  {
  }

  lemma RecordKeepsScope(u: Usage, id: EventId, e: UsageEvent, scope: Scope)
    requires TotalOf(u, scope) == SumOf(u.events, scope) && RecordUsage(u, id, e).1.Recorded?
    ensures TotalOf(RecordUsage(u, id, e).0, scope) == SumOf(RecordUsage(u, id, e).0.events, scope)
  {
    RecordMovesTotals(u, id, e, scope);
    NewEventSums(u.events, id, e, scope);
  }

  lemma RecordKeepsRoutes(u: Usage, id: EventId, e: UsageEvent, s: string)
    requires Sum(u.byRoute, RoutesOf(u, s)) == Get(u.bySession, s) && RecordUsage(u, id, e).1.Recorded?
    ensures Sum(RecordUsage(u, id, e).0.byRoute, RoutesOf(RecordUsage(u, id, e).0, s))
            == Get(RecordUsage(u, id, e).0.bySession, s)
  {
    NewRouteTotals(u, RecordUsage(u, id, e).0, RouteKey(id.session, e.route), e.counters, s);
  }

  lemma RecordKeeps(u: Usage, id: EventId, e: UsageEvent)
    requires Conserved(u) && e.counters.Safe()
    ensures Conserved(RecordUsage(u, id, e).0)
  {
    if RecordUsage(u, id, e).1.Recorded? {
      var v := RecordUsage(u, id, e).0;
      forall scope ensures TotalOf(v, scope) == SumOf(v.events, scope) { RecordKeepsScope(u, id, e, scope); }
      forall s ensures Get(v.bySession, s).Safe() {
        RecordMovesTotals(u, id, e, OfSession(s));
        assert Get(u.bySession, s).Safe();
      }
      forall s ensures Sum(v.byRoute, RoutesOf(v, s)) == Get(v.bySession, s) { RecordKeepsRoutes(u, id, e, s); }
    }
  }

  /**
   Conservation over any sequence of calls: each session, main, agent and route total is the sum of the distinct
   recorded events in its scope and a safe integer, and route totals add up to the session total.
   */
  lemma {:induction false} UsageIsConserved(u: Usage, calls: seq<Call>)
    requires Conserved(u) && forall c :: c in calls ==> c.event.counters.Safe()
    ensures Conserved(RecordAll(u, calls))
    ensures forall scope :: TotalOf(RecordAll(u, calls), scope).Safe()
    decreases |calls|
  {
    if calls == [] {
      forall scope ensures TotalOf(u, scope).Safe() { NarrowerIsSmaller(u, scope); }
    } else {
      RecordKeeps(u, calls[0].id, calls[0].event);
      UsageIsConserved(RecordUsage(u, calls[0].id, calls[0].event).0, calls[1..]);
    }
  }

  lemma EmptyIsConserved()
    ensures Conserved(EMPTY)
  {
    forall scope ensures TotalOf(EMPTY, scope) == SumOf(EMPTY.events, scope) {
      assert Members(EMPTY.events, scope) == {};
    }
    forall s ensures Sum(EMPTY.byRoute, RoutesOf(EMPTY, s)) == ZERO { assert RoutesOf(EMPTY, s) == {}; }
  }

  /** A call is recorded exactly when its id is new and the session total can take it; any other call changes nothing. */
  lemma OnlyNewEventsCount(u: Usage, id: EventId, e: UsageEvent)
    requires Conserved(u) && e.counters.Safe()
    ensures var (v, outcome) := RecordUsage(u, id, e);
            && (outcome.Recorded? <==> id !in u.events && Get(u.bySession, id.session).Plus(e.counters).Safe())
            && (outcome.Recorded? ==> v.events == u.events[id := e])
            && (!outcome.Recorded? ==> v == u)
            && (outcome.Duplicate? <==> id in u.events && u.events[id] == e)
            && (outcome.ScopeMismatch? <==> id in u.events && u.events[id] != e)
  {
    if CanAccumulate(u.bySession, id.session, e.counters) { SessionCheckSuffices(u, id, e); }
  }
}

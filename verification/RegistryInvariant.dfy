/** What the registry keeps, and what its teardowns and eviction loops do to it. */
module RegistryInvariant {
  import opened Base
  import opened RegistryModel

  predicate Holds(s: seq<Attached>, engine: nat) {
    exists i :: 0 <= i < |s| && s[i].engine == engine
  }

  // Sessions and engines are distinct, and the map's order is the order of last touch.
  predicate Tidy(s: seq<Attached>) {
    forall i, j :: 0 <= i < j < |s| ==>
      s[i].touched < s[j].touched && s[i].session != s[j].session && s[i].engine != s[j].engine
  }

  predicate Fresh(s: seq<Attached>, touches: nat) {
    forall i :: 0 <= i < |s| ==> s[i].touched < touches
  }

  predicate WithinCapacity(r: Registry) {
    |r.engines| + |r.reservations| <= r.maxTotal
  }

  // A creation that is still building holds a reservation, and every reservation is held.
  predicate Promised(r: Registry) {
    && r.reservations <= r.creations.Keys
    && (forall s :: s in r.creations && r.creations[s].phase.Building? ==> s in r.reservations)
    && (forall s :: s in r.reservations ==> r.creations[s].reserved)
  }

  predicate Once(log: seq<nat>) {
    forall i, j :: 0 <= i < j < |log| ==> log[i] != log[j]
  }

  // Every engine made is either attached or has had its disposal begun, never both.
  ghost predicate Accounted(r: Registry) {
    && Once(r.begun)
    && (forall n: nat :: n < r.made <==> (Holds(r.engines, n) || n in r.begun))
    && (forall n: nat :: n in r.begun ==> !Holds(r.engines, n))
    && (forall n :: n in r.retired ==> n in r.begun)
  }

  predicate Inventoried(r: Registry) {
    && |r.inventory| <= CLEANUP_BOUND
    && r.dropped + |r.inventory| == |r.retired|
  }

  ghost predicate Inv(r: Registry) {
    && Tidy(r.engines)
    && Fresh(r.engines, r.touches)
    && WithinCapacity(r)
    && Promised(r)
    && Accounted(r)
    && Inventoried(r)
  }

  // A registry some run of a new registry leads to.
  ghost predicate Reachable(r: Registry) {
    exists maxIdle: nat, maxTotal: nat, ttl: nat, hasFactory: bool, run: seq<(Event, Moment)> ::
      Legal(Empty(maxIdle, maxTotal, ttl, hasFactory), run)
      && r == After(Empty(maxIdle, maxTotal, ttl, hasFactory), run)
  }

  // ---- teardown and eviction -----------------------------------------------------------

  // Only what a teardown touches may differ.
  predicate OnlyTeardowns(r: Registry, r1: Registry) {
    r1 == r.(engines := r1.engines, retired := r1.retired, teardowns := r1.teardowns,
             inventory := r1.inventory, dropped := r1.dropped, begun := r1.begun)
  }

  predicate Present(s: seq<Attached>, session: string, engine: nat) {
    exists i :: 0 <= i < |s| && s[i].session == session && s[i].engine == engine
  }

  // A client that holds no lease and runs no mutation protects nothing.
  predicate Idle(a: Attached, m: Moment) {
    a.lease <= m.now && a.engine !in m.busy
  }

  // t is s with some evictable entries taken out, those touched longest ago first.
  ghost predicate OldestFirst(s: seq<Attached>, t: seq<Attached>, from: nat, ttl: nat, rule: Rule, m: Moment) {
    && from <= |t| <= |s|
    && (forall a :: a in t ==> a in s)
    && (forall a :: a in s && a !in t ==> Evictable(a, ttl, rule, m))
    && (forall a, b :: a in s && a !in t && b in t[from..] && Evictable(b, ttl, rule, m) ==> a.touched < b.touched)
  }

  predicate Spent(t: seq<Attached>, from: nat, ttl: nat, rule: Rule, m: Moment)
    requires from <= |t|
  {
    forall i :: from <= i < |t| ==> !Evictable(t[i], ttl, rule, m)
  }

  function Limit(r: Registry, rule: Rule): int {
    match rule
    case IdleBound(_) => r.maxIdle
    case TotalCapacity => r.maxTotal - |r.reservations| - 1
    case IdleSweep => 0
  }

  // What evicting the entries behind `before` does to the registry.
  ghost predicate EvictsTo(r: Registry, r1: Registry, before: seq<Attached>, rule: Rule, m: Moment) {
    && Inv(r1) && OnlyTeardowns(r, r1)
    && OldestFirst(r.engines, r1.engines, |before|, r.ttl, rule, m)
    && r1.engines[..|before|] == before
    && (Enough(r1, rule) || Spent(r1.engines, |before|, r.ttl, rule, m))
    && (r1 == r || Limit(r, rule) <= |r1.engines| < |r.engines|)
    && r.begun <= r1.begun && |r1.begun| - |r.begun| == |r.engines| - |r1.engines|
  }
}

/** Every step of the registry keeps the invariant. */
module RegistrySteps {
  import opened Base
  import opened RegistryModel
  import opened RegistryInvariant

  // ---- the ordered map -----------------------------------------------------------------

  lemma {:induction false} GetFinds(s: seq<Attached>, session: string)
    ensures Get(s, session).Some? ==> Get(s, session).value in s && Get(s, session).value.session == session
    ensures Get(s, session).None? ==> forall a :: a in s ==> a.session != session
  {
    if s != [] && s[0].session != session { GetFinds(s[1..], session); }
  }

  // Deleting a present key takes out exactly that entry and keeps the order of the rest.
  lemma {:induction false} WithoutAt(s: seq<Attached>, k: nat)
    requires Tidy(s) && k < |s|
    ensures Without(s, s[k].session, s[k].engine) == s[..k] + s[k + 1..]
  {
    if k > 0 {
      WithoutAt(s[1..], k - 1);
      assert s[1..][k - 1] == s[k];
      assert s[..k] + s[k + 1..] == [s[0]] + (s[1..][..k - 1] + s[1..][k..]);
    }
  }

  lemma {:induction false} WithoutAbsent(s: seq<Attached>, session: string, engine: nat)
    requires !Holds(s, engine)
    ensures Without(s, session, engine) == s
  {
    if s != [] {
      assert s[0].engine != engine;
      forall i | 0 <= i < |s[1..]| ensures s[1..][i].engine != engine { assert s[1..][i] == s[i + 1]; }
      WithoutAbsent(s[1..], session, engine);
    }
  }

  lemma CutKeepsTidy(s: seq<Attached>, k: nat, touches: nat)
    requires Tidy(s) && Fresh(s, touches) && k < |s|
    ensures Tidy(s[..k] + s[k + 1..]) && Fresh(s[..k] + s[k + 1..], touches)
    ensures forall n: nat :: Holds(s[..k] + s[k + 1..], n) <==> Holds(s, n) && n != s[k].engine
  {
    var t := s[..k] + s[k + 1..];
    forall n: nat ensures Holds(t, n) <==> Holds(s, n) && n != s[k].engine {
      if Holds(s, n) && n != s[k].engine {
        var i :| 0 <= i < |s| && s[i].engine == n;
        assert t[if i < k then i else i - 1].engine == n;
      }
    }
  }

  lemma {:induction false} UnleaseKeeps(s: seq<Attached>, engine: nat)
    ensures |Unlease(s, engine)| == |s|
    ensures forall i :: 0 <= i < |s| ==>
      Unlease(s, engine)[i] == if s[i].engine == engine then s[i].(lease := 0) else s[i]
  {
    if s != [] { UnleaseKeeps(s[1..], engine); }
  }

  // ---- the cleanup inventory -----------------------------------------------------------

  lemma {:induction false} FirstWithBound(inv: seq<Cleanup>, status: CleanupStatus)
    ensures FirstWith(inv, status) <= |inv|
    ensures FirstWith(inv, status) < |inv| ==> inv[FirstWith(inv, status)].status == status
    ensures forall i :: 0 <= i < FirstWith(inv, status) ==> inv[i].status != status
  {
    if inv != [] && inv[0].status != status { FirstWithBound(inv[1..], status); }
  }

  // One entry over the bound of 128: exactly one is given up, the oldest completed one, else the oldest
  // failed one, else the oldest.
  lemma TrimsOne(inv: seq<Cleanup>)
    requires |inv| == 129
    ensures var k := RemoveAt(inv);
            && k < |inv| && Trimmed(inv) == inv[..k] + inv[k + 1..]
            && (forall i :: 0 <= i < k ==> inv[i].status != inv[k].status)
            && (inv[k].status != Completed ==> forall i :: 0 <= i < |inv| ==> inv[i].status != Completed)
            && (inv[k].status == Pending ==> k == 0 && forall i :: 0 <= i < |inv| ==> inv[i].status == Pending)
  {
    FirstWithBound(inv, Completed);
    FirstWithBound(inv, Failed);
    var cut := inv[..RemoveAt(inv)] + inv[RemoveAt(inv) + 1..];
    assert Trimmed(cut) == cut;
  }

  lemma {:induction false} RestatusKeepsLength(inv: seq<Cleanup>, engine: nat, status: CleanupStatus)
    ensures |Restatus(inv, engine, status)| == |inv|
  {
    if inv != [] { RestatusKeepsLength(inv[1..], engine, status); }
  }

  // ---- teardown ------------------------------------------------------------------------

  lemma LogGrows(log: seq<nat>, engine: nat)
    requires Once(log) && engine !in log
    ensures Once(log + [engine])
    ensures forall n: nat :: n in log + [engine] <==> n in log || n == engine
  {
  }

  lemma LeavesTheMap(r: Registry, r1: Registry, engine: nat)
    requires Accounted(r) && Holds(r.engines, engine)
    requires forall n: nat :: Holds(r1.engines, n) <==> Holds(r.engines, n) && n != engine
    requires r1.begun == r.begun + [engine] && r1.made == r.made && r1.retired == r.retired + {engine}
    ensures Accounted(r1)
  {
    LogGrows(r.begun, engine);
  }

  lemma PushInventory(inv: seq<Cleanup>, engine: nat)
    requires |inv| <= CLEANUP_BOUND
    ensures |Trimmed(inv + [Cleanup(engine, Pending)])| <= CLEANUP_BOUND
  {
    var pushed := inv + [Cleanup(engine, Pending)];
    if |pushed| == CLEANUP_BOUND + 1 { TrimsOne(pushed); }
  }

  // A teardown that goes ahead takes its engine out of the map, once and for all.
  lemma TeardownRemoves(r: Registry, k: nat, force: bool, m: Moment)
    requires Inv(r) && k < |r.engines|
    requires force || r.engines[k].engine !in m.busy
    ensures r.engines[k].engine !in r.retired
    ensures var r1 := ScheduleTeardown(r, r.engines[k].session, r.engines[k].engine, force, m);
            && r1.engines == r.engines[..k] + r.engines[k + 1..]
            && r1.begun == r.begun + [r.engines[k].engine]
            && OnlyTeardowns(r, r1)
            && Inv(r1)
  {
    var e := r.engines[k].engine;
    assert Holds(r.engines, e);
    WithoutAt(r.engines, k);
    CutKeepsTidy(r.engines, k, r.touches);
    var r1 := ScheduleTeardown(r, r.engines[k].session, e, force, m);
    assert e !in r.retired;
    LeavesTheMap(r, r1, e);
    PushInventory(r.inventory, e);
  }

  lemma TeardownKeeps(r: Registry, session: string, engine: nat, force: bool, m: Moment)
    requires Inv(r)
    requires engine in r.retired || Present(r.engines, session, engine)
    ensures Inv(ScheduleTeardown(r, session, engine, force, m))
  {
    if engine !in r.retired && (force || engine !in m.busy) {
      var k: nat :| k < |r.engines| && r.engines[k].session == session && r.engines[k].engine == engine;
      TeardownRemoves(r, k, force, m);
    }
  }

  // ---- eviction ------------------------------------------------------------------------

  lemma BehindHead(before: seq<Attached>, queue: seq<Attached>, t: seq<Attached>, b: Attached)
    requires queue != [] && Tidy(before + queue) && Tidy(t) && |before| <= |t|
    requires t[..|before|] == before && b in t[|before|..] && b in before + queue[1..]
    ensures queue[0].touched < b.touched
  {
    var s := before + queue;
    assert s[|before|] == queue[0];
    var i :| |before| <= i < |t| && t[i] == b;
    forall j | 0 <= j < |before| ensures before[j] != b { assert t[j] == before[j]; }
    var j :| 0 <= j < |queue[1..]| && queue[1..][j] == b;
    assert s[|before| + 1 + j] == b;
  }

  lemma HeadAmong(before: seq<Attached>, queue: seq<Attached>, a: Attached)
    requires queue != []
    ensures a in before + queue <==> a == queue[0] || a in before + queue[1..]
  {
    assert before + queue == before + [queue[0]] + queue[1..];
  }

  lemma HeadGoesFirst(before: seq<Attached>, queue: seq<Attached>, t: seq<Attached>, ttl: nat, rule: Rule, m: Moment)
    requires queue != [] && Tidy(before + queue) && Tidy(t) && Evictable(queue[0], ttl, rule, m)
    requires OldestFirst(before + queue[1..], t, |before|, ttl, rule, m) && t[..|before|] == before
    ensures OldestFirst(before + queue, t, |before|, ttl, rule, m)
  {
    forall a ensures a in before + queue <==> a == queue[0] || a in before + queue[1..] {
      HeadAmong(before, queue, a);
    }
    forall b | b in t[|before|..] && Evictable(b, ttl, rule, m) ensures queue[0].touched < b.touched {
      assert b in t;
      BehindHead(before, queue, t, b);
    }
  }

  lemma HeadStays(before: seq<Attached>, head: Attached, s: seq<Attached>, t: seq<Attached>, ttl: nat, rule: Rule, m: Moment)
    requires !Evictable(head, ttl, rule, m)
    requires OldestFirst(s, t, |before| + 1, ttl, rule, m) && t[..|before| + 1] == before + [head]
    ensures t[..|before|] == before && t[|before|] == head
    ensures OldestFirst(s, t, |before|, ttl, rule, m)
    ensures Spent(t, |before| + 1, ttl, rule, m) ==> Spent(t, |before|, ttl, rule, m)
  {
    assert t[|before|] == t[..|before| + 1][|before|] == head;
    assert t[..|before|] == t[..|before| + 1][..|before|];
    assert t[|before|..] == [head] + t[|before| + 1..];
  }

  lemma Stays(r: Registry, before: seq<Attached>, queue: seq<Attached>, rule: Rule, m: Moment)
    requires Inv(r) && r.engines == before + queue && (queue == [] || Enough(r, rule))
    ensures EvictsTo(r, r, before, rule, m)
  {
  }

  lemma HeadEvicted(r: Registry, before: seq<Attached>, queue: seq<Attached>, rule: Rule, m: Moment)
    requires Inv(r) && r.engines == before + queue && queue != []
    requires Evictable(queue[0], r.ttl, rule, m)
    ensures var r0 := ScheduleTeardown(r, queue[0].session, queue[0].engine, false, m);
            && Inv(r0) && r0.engines == before + queue[1..] && OnlyTeardowns(r, r0)
            && r0.begun == r.begun + [queue[0].engine]
  {
    assert r.engines[|before|] == queue[0];
    TeardownRemoves(r, |before|, false, m);
  }

  lemma AfterHeadEvicted(r: Registry, r0: Registry, r1: Registry, before: seq<Attached>, queue: seq<Attached>, rule: Rule, m: Moment)
    requires Tidy(r.engines) && r.engines == before + queue && queue != [] && !Enough(r, rule)
    requires Evictable(queue[0], r.ttl, rule, m)
    requires OnlyTeardowns(r, r0) && r0.engines == before + queue[1..] && r0.begun == r.begun + [queue[0].engine]
    requires EvictsTo(r0, r1, before, rule, m)
    ensures EvictsTo(r, r1, before, rule, m)
  {
    HeadGoesFirst(before, queue, r1.engines, r.ttl, rule, m);
  }

  lemma AfterHeadKept(r: Registry, r1: Registry, before: seq<Attached>, head: Attached, rule: Rule, m: Moment)
    requires !Evictable(head, r.ttl, rule, m)
    requires EvictsTo(r, r1, before + [head], rule, m)
    ensures EvictsTo(r, r1, before, rule, m)
  {
    HeadStays(before, head, r.engines, r1.engines, r.ttl, rule, m);
  }

  lemma {:induction false} EvictFromFacts(r: Registry, before: seq<Attached>, queue: seq<Attached>, rule: Rule, m: Moment)
    requires Inv(r) && r.engines == before + queue
    ensures EvictsTo(r, EvictFrom(r, queue, rule, m), before, rule, m)
    decreases |queue|
  {
    hide *;
    Turn(r, queue, rule, m);
    if queue == [] || Enough(r, rule) {
      Stays(r, before, queue, rule, m);
    } else if Evictable(queue[0], r.ttl, rule, m) {
      HeadEvicted(r, before, queue, rule, m);
      Inside(r);
      var r0 := ScheduleTeardown(r, queue[0].session, queue[0].engine, false, m);
      EvictFromFacts(r0, before, queue[1..], rule, m);
      AfterHeadEvicted(r, r0, EvictFrom(r, queue, rule, m), before, queue, rule, m);
    } else {
      assert r.engines == (before + [queue[0]]) + queue[1..];
      EvictFromFacts(r, before + [queue[0]], queue[1..], rule, m);
      AfterHeadKept(r, EvictFrom(r, queue, rule, m), before, queue[0], rule, m);
    }
  }

  lemma Turn(r: Registry, queue: seq<Attached>, rule: Rule, m: Moment)
    ensures EvictFrom(r, queue, rule, m) ==
      if queue == [] || Enough(r, rule) then r
      else if !Evictable(queue[0], r.ttl, rule, m) then EvictFrom(r, queue[1..], rule, m)
      else EvictFrom(ScheduleTeardown(r, queue[0].session, queue[0].engine, false, m), queue[1..], rule, m)
  {
  }

  lemma Inside(r: Registry)
    requires Inv(r)
    ensures Tidy(r.engines) && Fresh(r.engines, r.touches) && WithinCapacity(r) && Promised(r) && Accounted(r) && Inventoried(r)
  {
  }

  lemma EvictKeeps(r: Registry, rule: Rule, m: Moment)
    requires Inv(r)
    ensures EvictsTo(r, Evict(r, rule, m), [], rule, m)
  {
    assert r.engines == [] + r.engines;
    EvictFromFacts(r, [], r.engines, rule, m);
  }

  // ---- each step keeps the invariant ---------------------------------------------------

  lemma SeatedKeeps(r: Registry, session: string, project: Option<string>, m: Moment)
    requires Inv(r) && Get(r.engines, session).None?
    requires |r.engines| + |r.reservations| < r.maxTotal
    ensures Inv(Seated(r, session, project, m))
    ensures Seated(r, session, project, m).engines[|r.engines|].engine == r.made
  {
    GetFinds(r.engines, session);
    assert !Holds(r.engines, r.made) && r.made !in r.begun;
    PushKeepsTidy(r.engines, Attached(session, r.made, project, 0, m.now, r.touches), r.touches);
  }

  lemma AdmissionKeeps(r: Registry, m: Moment)
    requires Inv(r)
    ensures Inv(Admission(r, m).0) && OnlyTeardowns(r, Admission(r, m).0)
    ensures forall a :: a in Admission(r, m).0.engines ==> a in r.engines
    ensures Admission(r, m).1.None? ==> |Admission(r, m).0.engines| + |Admission(r, m).0.reservations| < r.maxTotal
    ensures |r.engines| + |r.reservations| < r.maxTotal ==> Admission(r, m).1 != Some(AtCapacity)
  {
    EvictKeeps(r, TotalCapacity, m);
  }

  // The two ways to a free seat for a session: its previous attachment leaves, or capacity is found.
  function Cleared(r: Registry, session: string, m: Moment): Registry {
    var previous := Get(r.engines, session);
    if previous.Some? then ScheduleTeardown(r, session, previous.value.engine, true, m) else Admission(r, m).0
  }

  lemma ClearedKeeps(r: Registry, session: string, m: Moment)
    requires Inv(r)
    ensures var r1 := Cleared(r, session, m);
            && Inv(r1) && OnlyTeardowns(r, r1)
            && Get(r1.engines, session).None?
            && (Get(r.engines, session).Some? ==> |r1.engines| + |r1.reservations| < r1.maxTotal)
            && (forall a :: a in r1.engines ==> a in r.engines)
  {
    GetFinds(r.engines, session);
    if Get(r.engines, session).Some? {
      var k: nat :| k < |r.engines| && r.engines[k] == Get(r.engines, session).value;
      TeardownRemoves(r, k, true, m);
      GetFinds(r.engines[..k] + r.engines[k + 1..], session);
    } else {
      AdmissionKeeps(r, m);
      GetFinds(Admission(r, m).0.engines, session);
    }
  }

  lemma AttachKeeps(r: Registry, session: string, project: Option<string>, m: Moment)
    requires Inv(r)
    ensures Inv(Attach(r, session, project, m).0)
    ensures Attach(r, session, project, m).1.NotAttached? ==> OnlyTeardowns(r, Attach(r, session, project, m).0)
    ensures Attach(r, session, project, m).1.Admitted? ==>
      var r1 := Cleared(r, session, m);
      && Attach(r, session, project, m).1.engine == r.made
      && Attach(r, session, project, m).0 == Evict(Seated(r1, session, project, m), IdleBound(session), m)
      && Inv(Seated(r1, session, project, m))
      && r1.reservations == r.reservations && r1.creations == r.creations
  {
    if !r.disposed {
      ClearedKeeps(r, session, m);
      AdmissionKeeps(r, m);
      var r1 := Cleared(r, session, m);
      if Get(r.engines, session).Some? || Admission(r, m).1.None? {
        SeatedKeeps(r1, session, project, m);
        EvictKeeps(Seated(r1, session, project, m), IdleBound(session), m);
      }
    }
  }

  lemma CreateIs(r: Registry, session: string, fingerprint: string, m: Moment)
    ensures var (r1, error) := Admission(r, m);
            || Create(r, session, fingerprint, m).0 == r
            || Create(r, session, fingerprint, m).0 == r1
            || (session !in r.creations
                && Create(r, session, fingerprint, m).0 == r.(creations := r.creations[session := Creation(fingerprint, false, Ended)]))
            || (session !in r.creations && error.None?
                && Create(r, session, fingerprint, m).0 == Reserved(r1, session, fingerprint))
  {
  }

  function Reserved(r: Registry, session: string, fingerprint: string): Registry {
    r.(reservations := r.reservations + {session}, creations := r.creations[session := Creation(fingerprint, true, Building)])
  }

  lemma ReservedKeeps(r: Registry, session: string, fingerprint: string)
    requires Inv(r) && session !in r.creations
    ensures |r.engines| + |r.reservations| < r.maxTotal ==> Inv(Reserved(r, session, fingerprint))
    ensures Inv(r.(creations := r.creations[session := Creation(fingerprint, false, Ended)]))
  {
  }

  lemma SameCreations(r: Registry, r1: Registry)
    requires OnlyTeardowns(r, r1)
    ensures r1.creations == r.creations && r1.orphaned == r.orphaned && r1.reservations == r.reservations
    ensures r1.made == r.made && r1.maxTotal == r.maxTotal && r1.disposed == r.disposed
  {
  }

  lemma CreateKeeps(r: Registry, session: string, fingerprint: string, m: Moment)
    requires Inv(r)
    ensures Inv(Create(r, session, fingerprint, m).0)
  {
    hide *;
    CreateIs(r, session, fingerprint, m);
    AdmissionKeeps(r, m);
    var r1 := Admission(r, m).0;
    SameCreations(r, r1);
    if session !in r.creations {
      ReservedKeeps(r, session, fingerprint);
      ReservedKeeps(r1, session, fingerprint);
    }
  }

  lemma DiscardKeeps(r: Registry, session: string, disposable: bool)
    requires Inv(r)
    ensures Inv(Discard(r, session, disposable))
  {
    if disposable {
      assert !Holds(r.engines, r.made) && r.made !in r.begun;
      var log := r.begun + [r.made];
      assert Discard(r, session, disposable).begun == log;
      assert forall n: nat :: n in log <==> n in r.begun || n == r.made;
    }
  }

  lemma EndPhaseKeeps(r: Registry, session: string)
    requires Inv(r)
    ensures Inv(EndPhase(r, session, Ended))
  {
  }

  lemma UnreservedKeeps(r: Registry, session: string)
    requires Inv(r) && session in r.creations && r.creations[session].phase.Building?
    ensures var r1 := EndPhase(r.(reservations := r.reservations - {session}), session, Ended); Inv(r1)
    ensures |r.engines| + |r.reservations - {session}| < r.maxTotal
  {
  }

  lemma BuiltKeeps(r: Registry, session: string, path: string, disposable: bool, m: Moment)
    requires Inv(r) && CanHappen(r, FactoryResolved(session, path, disposable))
    ensures Inv(Built(r, session, path, disposable, m).0)
  {
    hide *;
    BuiltTurn(r, session, path, disposable, m);
    if r.disposed || Get(r.engines, session).Some? {
      DiscardKeeps(r, session, disposable);
    } else {
      BuildingOf(r, session, path, disposable);
      UnreservedKeeps(r, session);
      var r1 := EndPhase(r.(reservations := r.reservations - {session}), session, Ended);
      AttachKeeps(r1, session, Some(path), m);
      DiscardKeeps(Attach(r1, session, Some(path), m).0, session, disposable);
    }
  }

  lemma BuildingOf(r: Registry, session: string, path: string, disposable: bool)
    requires CanHappen(r, FactoryResolved(session, path, disposable)) && !r.disposed
    ensures session in r.creations && r.creations[session].phase.Building?
  {
  }

  lemma BuiltTurn(r: Registry, session: string, path: string, disposable: bool, m: Moment)
    ensures Built(r, session, path, disposable, m) ==
      if r.disposed || Get(r.engines, session).Some? then (Discard(r, session, disposable), None)
      else
        var r1 := EndPhase(r.(reservations := r.reservations - {session}), session, Ended);
        var (r2, reply) := Attach(r1, session, Some(path), m);
        (if reply.Admitted? then r2 else Discard(r2, session, disposable), Some(reply))
  {
  }

  lemma FinallyKeeps(r: Registry, session: string)
    requires Inv(r) && session in r.creations && !r.creations[session].phase.Building?
    ensures Inv(Finally(r, session))
  {
  }

  lemma UseKeeps(r: Registry, session: string, m: Moment)
    requires Inv(r)
    ensures Inv(Use(r, session, m))
  {
    GetFinds(r.engines, session);
    if Get(r.engines, session).Some? {
      var k: nat :| k < |r.engines| && r.engines[k] == Get(r.engines, session).value;
      MovedToEnd(r, k, m);
    }
  }

  lemma HoldsIt(s: seq<Attached>, a: Attached)
    requires a in s
    ensures Holds(s, a.engine)
  {
  }

  lemma MovedToEnd(r: Registry, k: nat, m: Moment)
    requires Inv(r) && k < |r.engines|
    ensures Inv(Touch(r, r.engines[k], m))
  {
    hide *;
    Inside(r);
    var a := r.engines[k].(lastAccess := m.now, lease := m.now + r.ttl, touched := r.touches);
    TouchIs(r, k, m);
    WithoutAt(r.engines, k);
    CutKeepsTidy(r.engines, k, r.touches);
    CutDiffers(r.engines, k);
    var rest := r.engines[..k] + r.engines[k + 1..];
    PushKeepsTidy(rest, a, r.touches);
    HoldsIt(r.engines, r.engines[k]);
    SameHolders(r, Touch(r, r.engines[k], m));
  }

  lemma TouchIs(r: Registry, k: nat, m: Moment)
    requires k < |r.engines|
    ensures Touch(r, r.engines[k], m)
         == r.(engines := Without(r.engines, r.engines[k].session, r.engines[k].engine)
                        + [r.engines[k].(lastAccess := m.now, lease := m.now + r.ttl, touched := r.touches)],
               touches := r.touches + 1)
  {
  }

  lemma CutDiffers(s: seq<Attached>, k: nat)
    requires Tidy(s) && k < |s|
    ensures var t := s[..k] + s[k + 1..];
            forall i :: 0 <= i < |t| ==> t[i].session != s[k].session && t[i].engine != s[k].engine
  {
  }

  lemma SameHolders(r: Registry, r1: Registry)
    requires Inv(r) && r1 == r.(engines := r1.engines, touches := r1.touches)
    requires Tidy(r1.engines) && Fresh(r1.engines, r1.touches) && |r1.engines| == |r.engines|
    requires forall n: nat :: Holds(r1.engines, n) <==> Holds(r.engines, n)
    ensures Inv(r1)
  {
  }

  lemma PushKeepsTidy(s: seq<Attached>, a: Attached, touches: nat)
    requires Tidy(s) && Fresh(s, touches) && a.touched == touches
    requires forall i :: 0 <= i < |s| ==> s[i].session != a.session && s[i].engine != a.engine
    ensures Tidy(s + [a]) && Fresh(s + [a], touches + 1)
    ensures forall n: nat :: Holds(s + [a], n) <==> Holds(s, n) || n == a.engine
  {
    forall n: nat ensures Holds(s + [a], n) <==> Holds(s, n) || n == a.engine {
      if Holds(s, n) {
        var i :| 0 <= i < |s| && s[i].engine == n;
        assert (s + [a])[i].engine == n;
      }
      assert (s + [a])[|s|].engine == a.engine;
    }
  }

  lemma ReleaseKeeps(r: Registry, session: string, m: Moment)
    requires Inv(r)
    ensures Inv(Release(r, session, m).0)
  {
    GetFinds(r.engines, session);
    if Get(r.engines, session).Some? {
      var a := Get(r.engines, session).value;
      UnleasedKeeps(r, a.engine);
      var r1 := r.(engines := Unlease(r.engines, a.engine));
      UnleaseKeeps(r.engines, a.engine);
      var k :| 0 <= k < |r.engines| && r.engines[k] == a;
      assert r1.engines[k].engine == a.engine && r1.engines[k].session == session;
      TeardownKeeps(r1, session, a.engine, false, m);
    }
  }

  lemma UnleasedKeeps(r: Registry, engine: nat)
    requires Inv(r)
    ensures Inv(r.(engines := Unlease(r.engines, engine)))
  {
    UnleaseKeeps(r.engines, engine);
    var s := Unlease(r.engines, engine);
    forall n: nat ensures Holds(s, n) <==> Holds(r.engines, n) {
      if Holds(r.engines, n) {
        var i :| 0 <= i < |r.engines| && r.engines[i].engine == n;
        assert s[i].engine == n;
      }
    }
  }

  lemma SettledKeeps(r: Registry, engine: nat, clean: bool)
    requires Inv(r)
    ensures Inv(Settled(r, engine, clean)) && Inv(TimedOut(r, engine)) && Inv(OrphanSettled(r, engine))
  {
    RestatusKeepsLength(r.inventory, engine, if clean then Completed else Failed);
    RestatusKeepsLength(r.inventory, engine, Failed);
  }

  lemma {:induction false} TeardownAllKeeps(r: Registry, queue: seq<Attached>, m: Moment)
    requires Inv(r) && r.engines == queue
    ensures Inv(TeardownAll(r, queue, m)) && TeardownAll(r, queue, m).engines == []
    decreases |queue|
  {
    if queue != [] {
      TeardownRemoves(r, 0, true, m);
      var r1 := ScheduleTeardown(r, queue[0].session, queue[0].engine, true, m);
      assert r1.engines == queue[1..];
      TeardownAllKeeps(r1, queue[1..], m);
    }
  }

  // One event, by its kind.
  lemma StepIs(r: Registry, e: Event, m: Moment)
    requires CanHappen(r, e)
    ensures e.AttachCalled? ==> Step(r, e, m) == Attach(r, e.session, e.project, m).0
    ensures e.DetachCalled? ==> Step(r, e, m) == ScheduleTeardown(r, e.session, e.engine, true, m)
    ensures e.CreateCalled? ==> Step(r, e, m) == Create(r, e.session, e.fingerprint, m).0
    ensures e.FactoryResolved? ==> Step(r, e, m) == Built(r, e.session, e.path, e.disposable, m).0
    ensures e.FactoryRejected? ==> Step(r, e, m) == EndPhase(r, e.session, Ended)
    ensures e.CreationEnded? ==>
              && e.session in r.creations && !r.creations[e.session].phase.Building?
              && Step(r, e, m) == Finally(r, e.session)
    ensures e.Used? ==> Step(r, e, m) == Use(r, e.session, m)
    ensures e.ReleaseCalled? ==> Step(r, e, m) == Release(r, e.session, m).0
    ensures e.SweepFired? ==> Step(r, e, m) == Evict(r, IdleSweep, m)
    ensures e.TeardownSettled? ==> Step(r, e, m) == Settled(r, e.engine, e.clean)
    ensures e.TeardownTimedOut? ==> Step(r, e, m) == TimedOut(r, e.engine)
    ensures e.OrphanFinished? ==> Step(r, e, m) == OrphanSettled(r, e.engine)
    ensures e.DisposeCalled? ==> Step(r, e, m) == TeardownAll(r.(disposed := true), r.engines, m)
    ensures e.DisposeFinished? ==> Step(r, e, m) == DisposeEnd(r)
  {
  }

  lemma DisposeKeeps(r: Registry, m: Moment)
    requires Inv(r)
    ensures Inv(TeardownAll(r.(disposed := true), r.engines, m)) && Inv(DisposeEnd(r))
  {
    var r1 := r.(disposed := true);
    assert Inv(r1);
    TeardownAllKeeps(r1, r1.engines, m);
  }

  lemma StepKeepsInv(r: Registry, e: Event, m: Moment)
    requires Inv(r) && CanHappen(r, e)
    ensures Inv(Step(r, e, m))
  {
    hide *;
    StepIs(r, e, m);
    match e
    case AttachCalled(session, project) => AttachKeeps(r, session, project, m);
    case DetachCalled(session, engine) => DetachKeeps(r, session, engine, m);
    case CreateCalled(session, fingerprint) => CreateKeeps(r, session, fingerprint, m);
    case FactoryResolved(session, path, disposable) => BuiltKeeps(r, session, path, disposable, m);
    case FactoryRejected(session) => EndPhaseKeeps(r, session);
    case CreationEnded(session) => FinallyKeeps(r, session);
    case Used(session) => UseKeeps(r, session, m);
    case ReleaseCalled(session) => ReleaseKeeps(r, session, m);
    case SweepFired => SweepKeeps(r, m);
    case TeardownSettled(engine, clean) => SettledKeeps(r, engine, clean);
    case TeardownTimedOut(engine) => SettledKeeps(r, engine, false);
    case OrphanFinished(engine) => SettledKeeps(r, engine, true);
    case DisposeCalled => DisposeKeeps(r, m);
    case DisposeFinished => DisposeKeeps(r, m);
  }

  lemma DetachKeeps(r: Registry, session: string, engine: nat, m: Moment)
    requires Inv(r) && CanHappen(r, DetachCalled(session, engine))
    ensures Inv(ScheduleTeardown(r, session, engine, true, m))
  {
    TeardownKeeps(r, session, engine, true, m);
  }

  lemma SweepKeeps(r: Registry, m: Moment)
    requires Inv(r)
    ensures Inv(Evict(r, IdleSweep, m))
  {
    EvictKeeps(r, IdleSweep, m);
  }

  lemma {:induction false} RunsKeepInv(r: Registry, run: seq<(Event, Moment)>)
    requires Inv(r) && Legal(r, run)
    ensures Inv(After(r, run))
    decreases |run|
  {
    if run != [] {
      StepKeepsInv(r, run[0].0, run[0].1);
      RunsKeepInv(Step(r, run[0].0, run[0].1), run[1..]);
    }
  }

  lemma ReachableInv(r: Registry)
    requires Reachable(r)
    ensures Inv(r)
  {
    var maxIdle: nat, maxTotal: nat, ttl: nat, hasFactory: bool, run: seq<(Event, Moment)> :|
      Legal(Empty(maxIdle, maxTotal, ttl, hasFactory), run)
      && r == After(Empty(maxIdle, maxTotal, ttl, hasFactory), run);
    RunsKeepInv(Empty(maxIdle, maxTotal, ttl, hasFactory), run);
  }
}

/**
 What every step of one arbiter keeps: admissions run in submission order, normal
 mutations run one at a time in submission order, and the active count, the generation
 set and the in-memory receipts describe exactly the submissions they stand for.
 */
module ArbiterLanes {
  import opened Base
  import opened ReceiptTables
  import opened ArbiterModel

  // ---- invariant ------------------------------------------------------------------------

  ghost predicate AdmissionsInTurn(a: Arbiter) {
    && a.turn <= |a.tasks|
    && (forall i :: 0 <= i < a.turn ==> !a.tasks[i].phase.Queued? && !a.tasks[i].phase.Checking?)
    && (a.turn < |a.tasks| ==> a.tasks[a.turn].phase.Queued? || a.tasks[a.turn].phase.Checking?)
    && (forall i :: a.turn < i < |a.tasks| ==> a.tasks[i].phase.Queued?)
  }

  ghost predicate LastOf(tasks: seq<Task>, lane: Lane, tail: nat, until: nat)
    requires until <= |tasks|
  {
    && tail <= until
    && (tail > 0 ==> tasks[tail - 1].req.lane == lane)
    && (forall j :: tail <= j < until ==> tasks[j].req.lane != lane)
  }

  ghost predicate Chained(a: Arbiter) {
    && LastOf(a.tasks, Normal, a.normalTail, |a.tasks|)
    && LastOf(a.tasks, Cancel, a.cancelTail, |a.tasks|)
    && (forall i {:trigger FollowsLast(a.tasks, i)} :: 0 <= i < |a.tasks| ==> FollowsLast(a.tasks, i))
  }

  ghost predicate FollowsLast(tasks: seq<Task>, i: nat)
    requires i < |tasks|
  {
    tasks[i].req.lane.Normal? ==> LastOf(tasks, Normal, tasks[i].follows, i)
  }

  predicate BothNormal(tasks: seq<Task>, j: nat, i: nat)
    requires j < |tasks| && i < |tasks|
  {
    tasks[j].req.lane.Normal? && tasks[i].req.lane.Normal?
  }

  ghost predicate NormalsInOrder(a: Arbiter) {
    forall j, i :: 0 <= j < i < |a.tasks| && BothNormal(a.tasks, j, i) && a.tasks[i].phase.Begun() ==>
      a.tasks[j].phase.Done()
  }

  ghost predicate FencesCoverCancels(a: Arbiter) {
    forall i :: 0 <= i < |a.tasks| && a.tasks[i].phase.Fenced? ==>
      && a.tasks[i].phase.seen <= |a.tasks|
      && LastOf(a.tasks, Cancel, a.tasks[i].phase.fence, a.tasks[i].phase.seen)
  }

  ghost function HeldBinding(tasks: seq<Task>): set<nat> {
    set i | 0 <= i < |tasks| && tasks[i].phase.Held() && Binds(tasks[i].req) :: tasks[i].phase.revision
  }

  ghost predicate RevisionsDistinct(a: Arbiter) {
    && (forall i :: 0 <= i < |a.tasks| && a.tasks[i].phase.Held() ==> a.tasks[i].phase.revision <= a.clock)
    && (forall i, j :: 0 <= i < |a.tasks| && 0 <= j < |a.tasks| && i != j
                       && a.tasks[i].phase.Held() && a.tasks[j].phase.Held() ==>
          a.tasks[i].phase.revision != a.tasks[j].phase.revision)
  }

  function HeldWeight(p: Phase): nat { if p.Held() then 1 else 0 }

  function Sum(tasks: seq<Task>, f: Phase -> nat): nat {
    if tasks == [] then 0 else f(tasks[0].phase) + Sum(tasks[1..], f)
  }

  ghost predicate Counted(a: Arbiter) {
    && a.active == Sum(a.tasks, HeldWeight)
    && a.generations == HeldBinding(a.tasks)
  }

  ghost predicate Remembered(a: Arbiter) {
    && (forall key :: key in a.receipts ==>
          a.receipts[key] < |a.tasks| && a.tasks[a.receipts[key]].req.key == key)
    && (forall i :: 0 <= i < |a.tasks| && !a.tasks[i].phase.Closed? ==>
          a.tasks[i].req.key in a.receipts && a.receipts[a.tasks[i].req.key] == i)
  }

  /** A refused submission is forgotten when it closes. */
  ghost predicate OnlyAdmittedStay(a: Arbiter) {
    forall key :: key in a.receipts && a.receipts[key] < |a.tasks| && a.tasks[a.receipts[key]].phase.Closed? ==>
      a.tasks[a.receipts[key]].phase.admitted.Some?
  }

  ghost predicate Lanes(a: Arbiter) {
    && AdmissionsInTurn(a)
    && Chained(a)
    && NormalsInOrder(a)
    && FencesCoverCancels(a)
    && RevisionsDistinct(a)
    && Counted(a)
    && Remembered(a)
    && OnlyAdmittedStay(a)
  }

  // ---- sums and sets over submissions --------------------------------------------------------

  lemma {:induction false} SumUpdate(tasks: seq<Task>, i: nat, x: Task, f: Phase -> nat)
    requires i < |tasks|
    ensures Sum(tasks[i := x], f) == Sum(tasks, f) - f(tasks[i].phase) + f(x.phase)
  {
    if i == 0 {
      assert tasks[0 := x][1..] == tasks[1..];
    } else {
      assert tasks[i := x][1..] == tasks[1..][i - 1 := x];
      SumUpdate(tasks[1..], i - 1, x, f);
    }
  }

  lemma {:induction false} SumAppend(tasks: seq<Task>, x: Task, f: Phase -> nat)
    ensures Sum(tasks + [x], f) == Sum(tasks, f) + f(x.phase)
  {
    if tasks == [] {
      assert tasks + [x] == [x];
    } else {
      assert (tasks + [x])[1..] == tasks[1..] + [x];
      SumAppend(tasks[1..], x, f);
    }
  }

  /** The active count is positive exactly when some admitted mutation is unfinished. */
  lemma {:induction false} SumPositive(tasks: seq<Task>, i: nat)
    requires i < |tasks| && tasks[i].phase.Held()
    ensures Sum(tasks, HeldWeight) > 0
  {
    if i > 0 { SumPositive(tasks[1..], i - 1); }
  }

  /** A phase change that leaves held submissions held at their revision, and others not held. */
  lemma SameHolding(tasks: seq<Task>, i: nat, p: Phase)
    requires i < |tasks| && tasks[i].phase.Held() == p.Held()
    requires p.Held() ==> p.revision == tasks[i].phase.revision
    ensures HeldBinding(tasks[i := tasks[i].(phase := p)]) == HeldBinding(tasks)
    ensures Sum(tasks[i := tasks[i].(phase := p)], HeldWeight) == Sum(tasks, HeldWeight)
  {
    var u := tasks[i := tasks[i].(phase := p)];
    SumUpdate(tasks, i, tasks[i].(phase := p), HeldWeight);
    forall g ensures g in HeldBinding(u) <==> g in HeldBinding(tasks) {
      if g in HeldBinding(u) {
        var k :| 0 <= k < |u| && u[k].phase.Held() && Binds(u[k].req) && u[k].phase.revision == g;
        assert tasks[k].phase.Held() && Binds(tasks[k].req) && tasks[k].phase.revision == g;
      }
      if g in HeldBinding(tasks) {
        var k :| 0 <= k < |tasks| && tasks[k].phase.Held() && Binds(tasks[k].req) && tasks[k].phase.revision == g;
        assert u[k].phase.Held() && Binds(u[k].req) && u[k].phase.revision == g;
      }
    }
  }

  lemma HeldBindingGains(tasks: seq<Task>, i: nat, revision: nat)
    requires i < |tasks| && !tasks[i].phase.Held()
    ensures HeldBinding(tasks[i := tasks[i].(phase := Accepted(revision))])
            == if Binds(tasks[i].req) then HeldBinding(tasks) + {revision} else HeldBinding(tasks)
  {
    var u := tasks[i := tasks[i].(phase := Accepted(revision))];
    assert Binds(tasks[i].req) ==> u[i].phase.Held() && Binds(u[i].req) && u[i].phase.revision == revision;
    forall g ensures g in HeldBinding(u)
                     <==> g in HeldBinding(tasks) || (Binds(tasks[i].req) && g == revision) {
      if g in HeldBinding(u) {
        var k :| 0 <= k < |u| && u[k].phase.Held() && Binds(u[k].req) && u[k].phase.revision == g;
        if k != i { assert tasks[k].phase.Held() && Binds(tasks[k].req); }
      }
      if g in HeldBinding(tasks) {
        var k :| 0 <= k < |tasks| && tasks[k].phase.Held() && Binds(tasks[k].req) && tasks[k].phase.revision == g;
        assert u[k].phase.Held() && Binds(u[k].req) && u[k].phase.revision == g;
      }
    }
  }

  lemma HeldBindingLoses(a: Arbiter, i: nat, p: Phase)
    requires i < |a.tasks| && a.tasks[i].phase.Held() && !p.Held() && RevisionsDistinct(a)
    ensures HeldBinding(a.tasks[i := a.tasks[i].(phase := p)])
            == if Binds(a.tasks[i].req) then HeldBinding(a.tasks) - {a.tasks[i].phase.revision}
               else HeldBinding(a.tasks)
  {
    var tasks := a.tasks;
    var u := tasks[i := tasks[i].(phase := p)];
    var rev := tasks[i].phase.revision;
    forall g ensures g in HeldBinding(u)
                     <==> g in HeldBinding(tasks) && !(Binds(tasks[i].req) && g == rev) {
      if g in HeldBinding(u) {
        var k :| 0 <= k < |u| && u[k].phase.Held() && Binds(u[k].req) && u[k].phase.revision == g;
        assert k != i && tasks[k].phase.Held() && Binds(tasks[k].req);
      }
      if g in HeldBinding(tasks) && !(Binds(tasks[i].req) && g == rev) {
        var k :| 0 <= k < |tasks| && tasks[k].phase.Held() && Binds(tasks[k].req) && tasks[k].phase.revision == g;
        assert k != i;
        assert u[k].phase.Held() && Binds(u[k].req) && u[k].phase.revision == g;
      }
    }
  }

  // ---- one phase change, one part of the invariant at a time -------------------------------------

  ghost predicate Rephased(a: Arbiter, b: Arbiter, i: nat, p: Phase) {
    && i < |a.tasks|
    && b.tasks == a.tasks[i := a.tasks[i].(phase := p)]
    && b.normalTail == a.normalTail
    && b.cancelTail == a.cancelTail
  }

  ghost predicate EarlierNormalsDone(tasks: seq<Task>, i: nat)
    requires i < |tasks|
  {
    forall j :: 0 <= j < i && tasks[j].req.lane.Normal? ==> tasks[j].phase.Done()
  }

  lemma RephasedInside(a: Arbiter, b: Arbiter, i: nat, p: Phase)
    requires Rephased(a, b, i, p)
    ensures i < |a.tasks| == |b.tasks| && b.tasks[i].phase == p
  {
  }

  lemma RephaseKeepsTurn(a: Arbiter, b: Arbiter, i: nat, p: Phase)
    requires AdmissionsInTurn(a) && Rephased(a, b, i, p)
    requires || (b.turn == a.turn == i && p.Checking?)
             || (b.turn == a.turn > i && !p.Queued? && !p.Checking?)
             || (b.turn == a.turn + 1 == i + 1 && !p.Queued? && !p.Checking?)
    ensures AdmissionsInTurn(b)
  {
  }

  lemma RephaseKeepsChain(a: Arbiter, b: Arbiter, i: nat, p: Phase)
    requires Chained(a) && Rephased(a, b, i, p)
    ensures Chained(b)
  {
    forall k | 0 <= k < |b.tasks| ensures FollowsLast(b.tasks, k) {
      assert FollowsLast(a.tasks, k);
    }
  }

  lemma RephaseKeepsOrder(a: Arbiter, b: Arbiter, i: nat, p: Phase)
    requires NormalsInOrder(a) && Rephased(a, b, i, p)
    requires a.tasks[i].phase.Done() ==> p.Done()
    requires p.Begun() && a.tasks[i].req.lane.Normal? ==> a.tasks[i].phase.Begun() || EarlierNormalsDone(a.tasks, i)
    ensures NormalsInOrder(b)
  {
    forall j, k | 0 <= j < k < |b.tasks| && BothNormal(b.tasks, j, k) && b.tasks[k].phase.Begun()
      ensures b.tasks[j].phase.Done()
    {
      assert BothNormal(a.tasks, j, k);
    }
  }

  lemma RephaseKeepsFences(a: Arbiter, b: Arbiter, i: nat, p: Phase)
    requires FencesCoverCancels(a) && Rephased(a, b, i, p)
    requires p.Fenced? ==> p.seen <= |a.tasks| && LastOf(a.tasks, Cancel, p.fence, p.seen)
    ensures FencesCoverCancels(b)
  {
  }

  lemma RephaseKeepsRevisions(a: Arbiter, b: Arbiter, i: nat, p: Phase)
    requires RevisionsDistinct(a) && Rephased(a, b, i, p) && a.clock <= b.clock
    requires p.Held() ==> if a.tasks[i].phase.Held() then p.revision == a.tasks[i].phase.revision
                          else a.clock < p.revision <= b.clock
    ensures RevisionsDistinct(b)
  {
  }

  lemma RephaseKeepsMemory(a: Arbiter, b: Arbiter, i: nat, p: Phase)
    requires Remembered(a) && Rephased(a, b, i, p) && b.receipts == a.receipts
    requires a.tasks[i].phase.Closed? ==> p.Closed?
    ensures Remembered(b)
  {
  }

  lemma RephaseKeepsAdmitted(a: Arbiter, b: Arbiter, i: nat, p: Phase)
    requires OnlyAdmittedStay(a) && Rephased(a, b, i, p) && b.receipts == a.receipts && !p.Closed?
    ensures OnlyAdmittedStay(b)
  {
  }

  lemma RephaseKeepsCounts(a: Arbiter, b: Arbiter, i: nat, p: Phase)
    requires Counted(a) && Rephased(a, b, i, p) && b.active == a.active && b.generations == a.generations
    requires a.tasks[i].phase.Held() == p.Held() && (p.Held() ==> p.revision == a.tasks[i].phase.revision)
    ensures Counted(b)
  {
    SameHolding(a.tasks, i, p);
  }

  // ---- every step keeps it ---------------------------------------------------------------------

  lemma OpenHasLanes(t: Tables, session: string, domain: string, clock: nat)
    ensures Lanes(Open(t, session, domain, clock).0)
  {
  }

  lemma RaiseClockKeeps(a: Arbiter, clock: nat)
    requires Lanes(a) && a.clock <= clock
    ensures Lanes(a.(clock := clock))
  {
    var b := a.(clock := clock);
    assert RevisionsDistinct(b);
    assert Chained(b);
  }

  lemma AppendKeepsChain(tasks: seq<Task>, x: Task)
    requires forall i {:trigger FollowsLast(tasks, i)} :: 0 <= i < |tasks| ==> FollowsLast(tasks, i)
    requires x.req.lane.Normal? ==> LastOf(tasks, Normal, x.follows, |tasks|)
    ensures forall i {:trigger FollowsLast(tasks + [x], i)} :: 0 <= i < |tasks| + 1 ==> FollowsLast(tasks + [x], i)
  {
    forall i | 0 <= i < |tasks| + 1 ensures FollowsLast(tasks + [x], i) {
      if i < |tasks| { assert FollowsLast(tasks, i); }
    }
  }

  lemma AppendKeepsHeld(tasks: seq<Task>, x: Task)
    requires !x.phase.Held()
    ensures HeldBinding(tasks + [x]) == HeldBinding(tasks)
    ensures Sum(tasks + [x], HeldWeight) == Sum(tasks, HeldWeight)
  {
    SumAppend(tasks, x, HeldWeight);
    var u := tasks + [x];
    forall g ensures g in HeldBinding(u) <==> g in HeldBinding(tasks) {
      if g in HeldBinding(tasks) {
        var k :| 0 <= k < |tasks| && tasks[k].phase.Held() && Binds(tasks[k].req) && tasks[k].phase.revision == g;
        assert u[k].phase.Held() && Binds(u[k].req) && u[k].phase.revision == g;
      }
      if g in HeldBinding(u) {
        var k :| 0 <= k < |u| && u[k].phase.Held() && Binds(u[k].req) && u[k].phase.revision == g;
        assert tasks[k].phase.Held() && Binds(tasks[k].req) && tasks[k].phase.revision == g;
      }
    }
  }

  lemma AppendKeepsOrder(a: Arbiter, b: Arbiter, x: Task)
    requires NormalsInOrder(a) && b.tasks == a.tasks + [x] && x.phase.Queued?
    ensures NormalsInOrder(b)
  {
    forall j, k | 0 <= j < k < |b.tasks| && BothNormal(b.tasks, j, k) && b.tasks[k].phase.Begun()
      ensures b.tasks[j].phase.Done()
    {
      assert BothNormal(a.tasks, j, k);
    }
  }

  lemma AppendKeepsMemory(a: Arbiter, b: Arbiter, x: Task)
    requires Remembered(a) && b.tasks == a.tasks + [x] && x.req.key !in a.receipts
    requires b.receipts == a.receipts[x.req.key := |a.tasks|]
    ensures Remembered(b)
  {
  }

  lemma AppendKeepsAdmitted(a: Arbiter, b: Arbiter, x: Task)
    requires Remembered(a) && OnlyAdmittedStay(a) && b.tasks == a.tasks + [x] && x.phase.Queued?
    requires b.receipts == a.receipts[x.req.key := |a.tasks|]
    ensures OnlyAdmittedStay(b)
  {
  }

  lemma AppendKeepsTurn(a: Arbiter, b: Arbiter, x: Task)
    requires AdmissionsInTurn(a) && b.tasks == a.tasks + [x] && b.turn == a.turn && x.phase.Queued?
    ensures AdmissionsInTurn(b)
  {
  }

  lemma AppendKeepsFences(a: Arbiter, b: Arbiter, x: Task)
    requires FencesCoverCancels(a) && b.tasks == a.tasks + [x] && x.phase.Queued?
    ensures FencesCoverCancels(b)
  {
  }

  lemma AppendKeepsRevisions(a: Arbiter, b: Arbiter, x: Task)
    requires RevisionsDistinct(a) && b.tasks == a.tasks + [x] && b.clock == a.clock && x.phase.Queued?
    ensures RevisionsDistinct(b)
  {
  }

  lemma AppendKeepsTails(a: Arbiter, b: Arbiter, x: Task)
    requires Chained(a) && b.tasks == a.tasks + [x] && (x.req.lane.Normal? ==> x.follows == a.normalTail)
    requires b.normalTail == if x.req.lane.Normal? then |a.tasks| + 1 else a.normalTail
    requires b.cancelTail == if x.req.lane.Cancel? then |a.tasks| + 1 else a.cancelTail
    ensures Chained(b)
  {
    AppendKeepsChain(a.tasks, x);
  }

  lemma SubmitKeeps(a: Arbiter, req: Request, canonical: bool, fail: Reply)
    requires Lanes(a)
    ensures Lanes(Submit(a, req, canonical, fail).0)
  {
    var (b, s) := Submit(a, req, canonical, fail);
    if s.Started? {
      var x := Task(req, if req.lane.Normal? then a.normalTail else 0, Queued);
      assert req.key !in a.receipts;
      AppendKeepsTurn(a, b, x);
      AppendKeepsTails(a, b, x);
      AppendKeepsOrder(a, b, x);
      AppendKeepsFences(a, b, x);
      AppendKeepsRevisions(a, b, x);
      AppendKeepsHeld(a.tasks, x);
      AppendKeepsMemory(a, b, x);
      AppendKeepsAdmitted(a, b, x);
    }
  }

  lemma RefuseKeeps(a: Arbiter, reply: Reply)
    requires Lanes(a) && a.turn < |a.tasks|
    ensures Lanes(Refuse(a, reply))
  {
    RefusalKeeps(a, Refuse(a, reply), a.turn, Refused(reply));
  }

  lemma CheckKeeps(a: Arbiter)
    requires Lanes(a) && CanBegin(a)
    ensures Lanes(SetPhase(a, a.turn, Checking))
  {
    RefusalKeeps(a, SetPhase(a, a.turn, Checking), a.turn, Checking);
  }

  lemma RefusalKeeps(a: Arbiter, b: Arbiter, i: nat, p: Phase)
    requires Lanes(a) && Rephased(a, b, i, p) && i == a.turn && (p.Refused? || p.Checking?)
    requires b.turn == (if p.Refused? then i + 1 else i) && b.clock == a.clock
    requires b.active == a.active && b.generations == a.generations && b.receipts == a.receipts
    ensures Lanes(b)
  {
    hide *;
    LanesParts(a);
    RephasedInside(a, b, i, p);
    AtTurn(a, i, p);
    RephaseKeepsTurn(a, b, i, p);
    RephaseKeepsChain(a, b, i, p);
    RephaseKeepsOrder(a, b, i, p);
    RephaseKeepsFences(a, b, i, p);
    RephaseKeepsRevisions(a, b, i, p);
    RephaseKeepsCounts(a, b, i, p);
    RephaseKeepsMemory(a, b, i, p);
    RephaseKeepsAdmitted(a, b, i, p);
    PartsLanes(b);
  }

  // The submission whose admission is next is neither held nor done.
  lemma AtTurn(a: Arbiter, i: nat, p: Phase)
    requires AdmissionsInTurn(a) && i == a.turn < |a.tasks| && (p.Refused? || p.Checking?)
    ensures var q := a.tasks[i].phase; !q.Held() && !q.Done() && !q.Closed? && !p.Held() && !p.Begun()
  {
  }

  ghost function Admit(a: Arbiter, revision: nat): Arbiter
    requires a.turn < |a.tasks|
  {
    SetPhase(a, a.turn, Accepted(revision)).(
      turn := a.turn + 1,
      clock := revision,
      active := a.active + 1,
      generations := if Binds(a.tasks[a.turn].req) then a.generations + {revision} else a.generations)
  }

  lemma AdmitKeepsLanes(a: Arbiter, revision: nat)
    requires Lanes(a) && a.turn < |a.tasks| && a.clock < revision
    ensures Lanes(Admit(a, revision))
  {
    hide *;
    LanesParts(a);
    var b, i, p := Admit(a, revision), a.turn, Accepted(revision);
    AdmitOnly(a, revision);
    AdmitCounts(a, revision);
    RephaseKeepsTurn(a, b, i, p);
    RephaseKeepsChain(a, b, i, p);
    RephaseKeepsOrder(a, b, i, p);
    RephaseKeepsFences(a, b, i, p);
    RephaseKeepsRevisions(a, b, i, p);
    RephaseKeepsMemory(a, b, i, p);
    RephaseKeepsAdmitted(a, b, i, p);
    PartsLanes(b);
  }

  lemma AdmitOnly(a: Arbiter, revision: nat)
    requires AdmissionsInTurn(a) && a.turn < |a.tasks|
    ensures var b, p := Admit(a, revision), Accepted(revision);
            && Rephased(a, b, a.turn, p) && b.receipts == a.receipts && b.clock == revision && b.turn == a.turn + 1
            && !p.Begun() && p.Held()
    ensures var q := a.tasks[a.turn].phase; !q.Held() && !q.Done() && !q.Closed?
  {
  }

  lemma AdmitCounts(a: Arbiter, revision: nat)
    requires AdmissionsInTurn(a) && Counted(a) && RevisionsDistinct(a) && a.turn < |a.tasks| && a.clock < revision
    ensures Counted(Admit(a, revision))
  {
    SumUpdate(a.tasks, a.turn, Admit(a, revision).tasks[a.turn], HeldWeight);
    HeldBindingGains(a.tasks, a.turn, revision);
  }

  /** With a clock that never runs ahead of the ledger, the admitted revision is new to this arbiter. */
  lemma CommitKeepsLanes(a: Arbiter, t: Tables, env: Surroundings)
    requires Lanes(a) && a.turn < |a.tasks| && a.clock <= Revision(t, a.session)
    ensures Lanes(Commit(a, t, env).0)
    ensures Commit(a, t, env).0.clock <= Revision(Commit(a, t, env).1, a.session)
  {
    hide *;
    var (u, result) := AdmitMutation(t, RefOf(a, a.tasks[a.turn].req), a.tasks[a.turn].req.fingerprint);
    CommitIs(a, t, env);
    CommitClock(a, t, env);
    if env.admitThrows || result.AdmitThrows? {
      RefuseKeeps(a, env.fail);
    } else if result.Existing? {
      AnswerKeeps(a, u, result.lookup, env.fail);
    } else {
      AdmitKeepsLanes(a, result.revision);
    }
  }

  lemma CommitIs(a: Arbiter, t: Tables, env: Surroundings)
    requires a.turn < |a.tasks| && a.clock <= Revision(t, a.session)
    ensures var (u, result) := AdmitMutation(t, RefOf(a, a.tasks[a.turn].req), a.tasks[a.turn].req.fingerprint);
            && (result.AdmittedAt? ==> a.clock < result.revision)
            && (result.Existing? ==> !result.lookup.Miss?)
            && Commit(a, t, env).0 ==
               if env.admitThrows || result.AdmitThrows? then Refuse(a, env.fail)
               else if result.Existing? then AnswerDurably(a, u, result.lookup, env.fail)
               else Admit(a, result.revision)
  {
  }

  lemma CommitClock(a: Arbiter, t: Tables, env: Surroundings)
    requires a.turn < |a.tasks| && a.clock <= Revision(t, a.session)
    ensures Commit(a, t, env).0.clock <= Revision(Commit(a, t, env).1, a.session)
  {
  }

  lemma AnswerKeeps(a: Arbiter, t: Tables, lookup: Lookup, fail: Reply)
    requires Lanes(a) && a.turn < |a.tasks| && !lookup.Miss?
    ensures Lanes(AnswerDurably(a, t, lookup, fail))
  {
    var clock := Max(a.clock, Revision(t, a.session));
    RefuseKeeps(a, DurableReply(clock, lookup, fail));
    RaiseClockKeeps(Refuse(a, DurableReply(clock, lookup, fail)), clock);
  }

  lemma BeginKeepsLanes(a: Arbiter, t: Tables, env: Surroundings)
    requires Lanes(a) && CanBegin(a) && a.clock <= Revision(t, a.session)
    ensures Lanes(Begin(a, t, env).0)
    ensures Begin(a, t, env).0.clock <= Revision(Begin(a, t, env).1, a.session)
  {
    var req := a.tasks[a.turn].req;
    var lookup := LookupMutation(t, RefOf(a, req), req.fingerprint);
    if env.lookupThrows {
      RefuseKeeps(a, env.fail);
    } else if !lookup.Miss? {
      var clock := Max(a.clock, Revision(t, a.session));
      RefuseKeeps(a, DurableReply(clock, lookup, env.fail));
      RaiseClockKeeps(Refuse(a, DurableReply(clock, lookup, env.fail)), clock);
    } else if AsksIdentity(a, req) && env.identity.Throws? {
      RefuseKeeps(a, env.fail);
    } else if !Fresh(a, req, env) {
      RefuseKeeps(a, Conflict(a.clock));
    } else if req.checksPrecondition {
      CheckKeeps(a);
    } else {
      CommitKeepsLanes(a, t, env);
    }
  }

  lemma ResumeKeepsLanes(a: Arbiter, t: Tables, gate: Gate, env: Surroundings)
    requires Lanes(a) && CanResume(a) && a.clock <= Revision(t, a.session)
    ensures Lanes(Resume(a, t, gate, env).0)
    ensures Resume(a, t, gate, env).0.clock <= Revision(Resume(a, t, gate, env).1, a.session)
  {
    match gate
    case Proceed => CommitKeepsLanes(a, t, env);
    case Stop(reply) => RefuseKeeps(a, reply);
    case Throw(reply) => RefuseKeeps(a, reply);
  }

  /** When the predecessor on the normal tail is done, so is every earlier normal submission. */
  lemma PredecessorsDone(a: Arbiter, i: nat)
    requires Chained(a) && NormalsInOrder(a) && CanConsume(a, i) && a.tasks[i].req.lane.Normal?
    ensures EarlierNormalsDone(a.tasks, i)
  {
    assert FollowsLast(a.tasks, i);
    var p := a.tasks[i].follows - 1;
    forall j | 0 <= j < i && a.tasks[j].req.lane.Normal? ensures a.tasks[j].phase.Done() {
      if j < p { assert BothNormal(a.tasks, j, p) && a.tasks[p].phase.Begun(); }
    }
  }

  /** Steps after admission: the revision held is unchanged or released. */
  lemma LaterStepKeeps(a: Arbiter, b: Arbiter, i: nat, p: Phase)
    requires Lanes(a) && Rephased(a, b, i, p) && i < a.turn == b.turn && !p.Queued? && !p.Checking? && !p.Closed?
    requires b.clock == a.clock && b.receipts == a.receipts
    requires !a.tasks[i].phase.Done() && (p.Begun() && a.tasks[i].req.lane.Normal? ==>
               a.tasks[i].phase.Begun() || EarlierNormalsDone(a.tasks, i))
    requires p.Fenced? ==> p == Fenced(p.revision, a.cancelTail, |a.tasks|)
    requires p.Held() ==> a.tasks[i].phase.Held() && p.revision == a.tasks[i].phase.revision
    requires Counted(b)
    ensures Lanes(b)
  {
    RephaseKeepsTurn(a, b, i, p);
    RephaseKeepsChain(a, b, i, p);
    RephaseKeepsOrder(a, b, i, p);
    RephaseKeepsFences(a, b, i, p);
    RephaseKeepsRevisions(a, b, i, p);
    RephaseKeepsMemory(a, b, i, p);
    RephaseKeepsAdmitted(a, b, i, p);
  }

  lemma ConsumeKeepsLanes(a: Arbiter, i: nat)
    requires Lanes(a) && CanConsume(a, i)
    ensures Lanes(Consume(a, i))
  {
    var b := Consume(a, i);
    var p := b.tasks[i].phase;
    if a.tasks[i].req.lane.Normal? { PredecessorsDone(a, i); }
    RephaseKeepsCounts(a, b, i, p);
    LaterStepKeeps(a, b, i, p);
  }

  lemma LaunchKeepsLanes(a: Arbiter, i: nat)
    requires Lanes(a) && CanLaunch(a, i)
    ensures Lanes(Launch(a, i))
  {
    var b := Launch(a, i);
    RephaseKeepsCounts(a, b, i, b.tasks[i].phase);
    LaterStepKeeps(a, b, i, b.tasks[i].phase);
  }

  lemma FinishKeepsLanes(a: Arbiter, t: Tables, i: nat, failed: bool, reply: Reply, storable: bool, fail: Reply)
    requires Lanes(a) && CanFinish(a, i)
    ensures Lanes(Finish(a, t, i, failed, reply, storable, fail).0)
  {
    var b := Finish(a, t, i, failed, reply, storable, fail).0;
    SumUpdate(a.tasks, i, b.tasks[i], HeldWeight);
    HeldBindingLoses(a, i, b.tasks[i].phase);
    LaterStepKeeps(a, b, i, b.tasks[i].phase);
  }

  lemma {:induction false} FirstEvictableIsFirst(tasks: seq<Task>, receipts: map<string, nat>, own: string, from: nat)
    ensures match FirstEvictable(tasks, receipts, own, from)
            case Some(j) => from <= j && Evictable(tasks, receipts, own, j)
                            && forall k :: from <= k < j ==> !Evictable(tasks, receipts, own, k)
            case None => forall k :: from <= k < |tasks| ==> !Evictable(tasks, receipts, own, k)
    decreases |tasks| - from
  {
    if from < |tasks| && !Evictable(tasks, receipts, own, from) {
      FirstEvictableIsFirst(tasks, receipts, own, from + 1);
    }
  }

  /** Forgetting a closed submission leaves every open one remembered. */
  lemma ForgetKeepsMemory(a: Arbiter, j: nat)
    requires Remembered(a) && j < |a.tasks| && a.tasks[j].phase.Closed?
    requires a.tasks[j].req.key in a.receipts && a.receipts[a.tasks[j].req.key] == j
    ensures Remembered(a.(receipts := a.receipts - {a.tasks[j].req.key}))
  {
    var b := a.(receipts := a.receipts - {a.tasks[j].req.key});
    forall i | 0 <= i < |b.tasks| && !b.tasks[i].phase.Closed?
      ensures b.tasks[i].req.key in b.receipts && b.receipts[b.tasks[i].req.key] == i
    {
      assert a.tasks[i].req.key in a.receipts && a.receipts[a.tasks[i].req.key] == i;
    }
  }

  lemma ForgottenIs(a: Arbiter, i: nat)
    requires CanClose(a, i)
    ensures var p, key := Closed(a.tasks[i].phase.reply, a.tasks[i].phase.admitted), a.tasks[i].req.key;
            var b := SetPhase(a, i, p);
            && i < |a.tasks| && Rephased(a, b, i, p) && b.receipts == a.receipts
            && b.tasks[i].phase == p && b.tasks[i].req.key == key
            && Forgotten(a, i) == if a.tasks[i].phase.admitted.None? && key in a.receipts && a.receipts[key] == i
                                  then b.(receipts := b.receipts - {key}) else b
  {
  }

  lemma BoundedIs(a: Arbiter, own: string)
    ensures var victim := FirstEvictable(a.tasks, a.receipts, own, 0);
            || Bounded(a, own) == a
            || (victim.Some? && victim.value < |a.tasks|
                && Bounded(a, own) == a.(receipts := a.receipts - {a.tasks[victim.value].req.key}))
  {
  }

  lemma BoundedKeepsMemory(a: Arbiter, own: string)
    requires Remembered(a)
    ensures Remembered(Bounded(a, own))
  {
    hide *;
    BoundedIs(a, own);
    FirstEvictableIsFirst(a.tasks, a.receipts, own, 0);
    var victim := FirstEvictable(a.tasks, a.receipts, own, 0);
    if victim.Some? {
      EvictableIs(a.tasks, a.receipts, own, victim.value);
      ForgetKeepsMemory(a, victim.value);
    }
  }

  lemma EvictableIs(tasks: seq<Task>, receipts: map<string, nat>, own: string, j: nat)
    requires Evictable(tasks, receipts, own, j)
    ensures j < |tasks| && tasks[j].phase.Closed? && tasks[j].req.key in receipts && receipts[tasks[j].req.key] == j
  {
  }

  lemma CloseIs(a: Arbiter, i: nat)
    requires CanClose(a, i)
    ensures i < |a.tasks| && a.tasks[i].phase.Settled? && Close(a, i) == Bounded(Forgotten(a, i), a.tasks[i].req.key)
  {
  }

  lemma CloseKeepsMemory(a: Arbiter, i: nat)
    requires Remembered(a) && CanClose(a, i)
    ensures Remembered(Close(a, i))
  {
    hide *;
    CloseIs(a, i);
    ForgottenIs(a, i);
    var b := SetPhase(a, i, Closed(a.tasks[i].phase.reply, a.tasks[i].phase.admitted));
    RephaseKeepsMemory(a, b, i, b.tasks[i].phase);
    if Forgotten(a, i) != b { ForgetKeepsMemory(b, i); }
    BoundedKeepsMemory(Forgotten(a, i), a.tasks[i].req.key);
  }

  /** Which submissions stay remembered, and that nothing but phase and receipts changes. */
  lemma CloseOnly(a: Arbiter, i: nat)
    requires Remembered(a) && CanClose(a, i)
    ensures var b, p := Close(a, i), Closed(a.tasks[i].phase.reply, a.tasks[i].phase.admitted);
            && Rephased(a, b, i, p) && a.tasks[i].phase.Settled? && i < |b.tasks| && b.tasks[i].phase == p
            && b.turn == a.turn && b.clock == a.clock && b.active == a.active && b.generations == a.generations
            && (forall key :: key in b.receipts ==> key in a.receipts && b.receipts[key] == a.receipts[key])
            && (a.tasks[i].phase.admitted.None? ==> forall key :: key in b.receipts ==> b.receipts[key] != i)
  {
    hide *;
    CloseIs(a, i);
    ForgottenIs(a, i);
    ForgottenOnly(a, i);
    BoundedIs(Forgotten(a, i), a.tasks[i].req.key);
    var p := Closed(a.tasks[i].phase.reply, a.tasks[i].phase.admitted);
    RephasedReceipts(a, SetPhase(a, i, p), i, p, Close(a, i).receipts);
  }

  lemma RephasedReceipts(a: Arbiter, b: Arbiter, i: nat, p: Phase, receipts: map<string, nat>)
    requires Rephased(a, b, i, p)
    ensures Rephased(a, b.(receipts := receipts), i, p) && i < |b.tasks| && b.tasks[i].phase == p
  {
  }

  lemma ForgottenOnly(a: Arbiter, i: nat)
    requires Remembered(a) && CanClose(a, i)
    ensures var b, p := Forgotten(a, i), Closed(a.tasks[i].phase.reply, a.tasks[i].phase.admitted);
            && b == SetPhase(a, i, p).(receipts := b.receipts)
            && SetPhase(a, i, p) == a.(tasks := a.tasks[i := a.tasks[i].(phase := p)])
            && (forall key :: key in b.receipts ==> key in a.receipts && b.receipts[key] == a.receipts[key])
            && (a.tasks[i].phase.admitted.None? ==> forall key :: key in b.receipts ==> b.receipts[key] != i)
  {
  }

  lemma CloseKeepsAdmitted(a: Arbiter, i: nat)
    requires Remembered(a) && OnlyAdmittedStay(a) && CanClose(a, i)
    ensures OnlyAdmittedStay(Close(a, i))
  {
    CloseOnly(a, i);
    RememberedStay(a, Close(a, i), i, Closed(a.tasks[i].phase.reply, a.tasks[i].phase.admitted));
  }

  lemma RememberedStay(a: Arbiter, b: Arbiter, i: nat, p: Phase)
    requires OnlyAdmittedStay(a) && Rephased(a, b, i, p) && p.Closed?
    requires forall key :: key in b.receipts ==> key in a.receipts && b.receipts[key] == a.receipts[key]
    requires p.admitted.None? ==> forall key :: key in b.receipts ==> b.receipts[key] != i
    ensures OnlyAdmittedStay(b)
  {
  }

  lemma CloseKeepsLanes(a: Arbiter, i: nat)
    requires Lanes(a) && CanClose(a, i)
    ensures Lanes(Close(a, i))
  {
    hide *;
    LanesParts(a);
    CloseIs(a, i);
    var b, p := Close(a, i), Closed(a.tasks[i].phase.reply, a.tasks[i].phase.admitted);
    CloseOnly(a, i);
    SettledLane(a, i);
    ClosedPhase(a.tasks[i].phase, p);
    RephaseKeepsCounts(a, b, i, p);
    RephaseKeepsTurn(a, b, i, p);
    RephaseKeepsChain(a, b, i, p);
    RephaseKeepsOrder(a, b, i, p);
    RephaseKeepsFences(a, b, i, p);
    RephaseKeepsRevisions(a, b, i, p);
    CloseKeepsMemory(a, i);
    CloseKeepsAdmitted(a, i);
    PartsLanes(b);
  }

  lemma ClosedPhase(q: Phase, p: Phase)
    requires q.Settled? && p.Closed?
    ensures !q.Held() && !p.Held() && q.Done() && p.Done() && q.Begun()
  {
  }

  // A settled submission has passed the admission turn.
  lemma SettledLane(a: Arbiter, i: nat)
    requires AdmissionsInTurn(a) && i < |a.tasks| && a.tasks[i].phase.Settled?
    ensures i < a.turn
  {
  }

  lemma LanesParts(a: Arbiter)
    requires Lanes(a)
    ensures AdmissionsInTurn(a) && Chained(a) && NormalsInOrder(a) && FencesCoverCancels(a)
    ensures RevisionsDistinct(a) && Counted(a) && Remembered(a) && OnlyAdmittedStay(a)
    ensures a.turn <= |a.tasks|
  {
  }

  lemma PartsLanes(a: Arbiter)
    requires AdmissionsInTurn(a) && Chained(a) && NormalsInOrder(a) && FencesCoverCancels(a)
    requires RevisionsDistinct(a) && Counted(a) && Remembered(a) && OnlyAdmittedStay(a)
    ensures Lanes(a)
  {
  }
}

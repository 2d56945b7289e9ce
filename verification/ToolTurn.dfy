/** Slicing a Responses input to its latest tool turn. */
module ToolTurn {
  // Call and Output are records of type function_call and function_call_output whose call_id
  // is a string; Plain is any other record; NonRecord is anything that is not a record.
  datatype Item = Call(id: string, body: string) | Output(id: string, body: string)
                | Message(body: string) | Plain(body: string) | NonRecord(body: string)

  // ---- pairing -------------------------------------------------------------------------

  function CallIds(s: seq<Item>): set<string> {
    set x | x in s && x.Call? :: x.id
  }

  function OutputIds(s: seq<Item>): set<string> {
    set x | x in s && x.Output? :: x.id
  }

  predicate Kept(x: Item, calls: set<string>, outputs: set<string>) {
    (x.Call? ==> x.id in outputs) && (x.Output? ==> x.id in calls)
  }

  function Filter(s: seq<Item>, calls: set<string>, outputs: set<string>): seq<Item> {
    if s == [] then []
    else (if Kept(s[0], calls, outputs) then [s[0]] else []) + Filter(s[1..], calls, outputs)
  }

  function RemoveUnpaired(items: seq<Item>): seq<Item> {
    Filter(items, CallIds(items), OutputIds(items))
  }

  lemma {:induction false} FilterKeeps(s: seq<Item>, calls: set<string>, outputs: set<string>, x: Item)
    ensures multiset(Filter(s, calls, outputs))[x] == if Kept(x, calls, outputs) then multiset(s)[x] else 0
  {
    if s != [] {
      assert s == [s[0]] + s[1..];
      FilterKeeps(s[1..], calls, outputs, x);
    }
  }

  lemma {:induction false} FilterSplits(a: seq<Item>, b: seq<Item>, calls: set<string>, outputs: set<string>)
    ensures Filter(a + b, calls, outputs) == Filter(a, calls, outputs) + Filter(b, calls, outputs)
  {
    hide *;
    if a == [] {
      FilterNone(calls, outputs);
      assert a + b == b;
    } else {
      FilterSplits(a[1..], b, calls, outputs);
      FilterHead(a, calls, outputs);
      FilterHead(a + b, calls, outputs);
      assert (a + b)[1..] == a[1..] + b;
    }
  }

  lemma FilterNone(calls: set<string>, outputs: set<string>)
    ensures Filter([], calls, outputs) == []
  {
  }

  lemma FilterHead(s: seq<Item>, calls: set<string>, outputs: set<string>)
    requires s != []
    ensures Filter(s, calls, outputs) == (if Kept(s[0], calls, outputs) then [s[0]] else []) + Filter(s[1..], calls, outputs)
  {
  }

  lemma {:induction false} FilterAll(s: seq<Item>, calls: set<string>, outputs: set<string>)
    requires forall x :: x in s ==> Kept(x, calls, outputs)
    ensures Filter(s, calls, outputs) == s
  {
    if s != [] { FilterAll(s[1..], calls, outputs); }
  }

  // What survives of an item is all or nothing, by whether its partner is present anywhere.
  lemma SurvivesIffPartnered(s: seq<Item>, x: Item)
    ensures multiset(RemoveUnpaired(s))[x] ==
            if (x.Call? && x.id !in OutputIds(s)) || (x.Output? && x.id !in CallIds(s)) then 0 else multiset(s)[x]
  {
    FilterKeeps(s, CallIds(s), OutputIds(s), x);
  }

  lemma SurvivorsIn(s: seq<Item>, x: Item)
    ensures x in RemoveUnpaired(s) <==> x in s && Kept(x, CallIds(s), OutputIds(s))
  {
    SurvivesIffPartnered(s, x);
    assert x in RemoveUnpaired(s) <==> x in multiset(RemoveUnpaired(s));
    assert x in s <==> x in multiset(s);
  }

  // Afterwards calls and outputs carry the same ids, those that had both.
  lemma PairedIds(s: seq<Item>)
    ensures CallIds(RemoveUnpaired(s)) == OutputIds(RemoveUnpaired(s)) == CallIds(s) * OutputIds(s)
  {
    var r := RemoveUnpaired(s);
    forall id | id in CallIds(s) * OutputIds(s) ensures id in CallIds(r) && id in OutputIds(r) {
      var c :| c in s && c.Call? && c.id == id;
      var o :| o in s && o.Output? && o.id == id;
      SurvivorsIn(s, c);
      SurvivorsIn(s, o);
    }
    forall x | x in r && (x.Call? || x.Output?) ensures x.id in CallIds(s) * OutputIds(s) {
      SurvivorsIn(s, x);
    }
  }

  lemma PairingIsIdempotent(s: seq<Item>)
    ensures RemoveUnpaired(RemoveUnpaired(s)) == RemoveUnpaired(s)
  {
    var r := RemoveUnpaired(s);
    PairedIds(s);
    forall x | x in r ensures Kept(x, CallIds(r), OutputIds(r)) { SurvivorsIn(s, x); }
    FilterAll(r, CallIds(r), OutputIds(r));
  }

  // ---- where the latest tool turn starts -----------------------------------------------

  function LastOutput(s: seq<Item>): int
    ensures -1 <= LastOutput(s) < |s|
    ensures LastOutput(s) >= 0 ==> s[LastOutput(s)].Output?
    ensures forall i :: LastOutput(s) < i < |s| ==> !s[i].Output?
  {
    if s == [] then -1 else if s[|s| - 1].Output? then |s| - 1 else LastOutput(s[..|s| - 1])
  }

  // The lowest index from which outputs run without a gap up to index `at`.
  function BlockFrom(s: seq<Item>, at: nat): (b: nat)
    requires at < |s| && s[at].Output?
    ensures b <= at
    ensures forall i :: b <= i <= at ==> s[i].Output?
    ensures b > 0 ==> !s[b - 1].Output?
  {
    if at > 0 && s[at - 1].Output? then BlockFrom(s, at - 1) else at
  }

  // The start of the last contiguous block of outputs, or -1.
  function BlockStart(s: seq<Item>): (b: int)
    ensures -1 <= b < |s|
  {
    if LastOutput(s) < 0 then -1 else BlockFrom(s, LastOutput(s))
  }

  // The highest index from which, up to the block, every id has a call; or -1.
  function Needed(s: seq<Item>, n: nat, t: nat, ids: set<string>): (k: int)
    requires n <= t <= |s|
    ensures -1 <= k <= n
  {
    if ids <= CallIds(s[n..t]) then n else if n == 0 then -1 else Needed(s, n - 1, t, ids)
  }

  lemma {:induction false} NeededIsHighest(s: seq<Item>, n: nat, t: nat, ids: set<string>)
    requires n <= t <= |s|
    ensures Needed(s, n, t, ids) >= 0 ==> ids <= CallIds(s[Needed(s, n, t, ids)..t])
    ensures forall i :: 0 <= i <= n && i > Needed(s, n, t, ids) ==> !(ids <= CallIds(s[i..t]))
  {
    var covers := ids <= CallIds(s[n..t]);
    if n > 0 && !covers { NeededIsHighest(s, n - 1, t, ids); }
  }

  function NearestMessage(s: seq<Item>, n: nat): (m: int)
    requires n <= |s|
    ensures -1 <= m < n
  {
    if n == 0 then -1 else if s[n - 1].Message? then n - 1 else NearestMessage(s, n - 1)
  }

  lemma {:induction false} NearestMessageIsNearest(s: seq<Item>, n: nat)
    requires n <= |s|
    ensures NearestMessage(s, n) >= 0 ==> s[NearestMessage(s, n)].Message?
    ensures forall i :: NearestMessage(s, n) < i < n ==> !s[i].Message?
  {
    if n > 0 && !s[n - 1].Message? { NearestMessageIsNearest(s, n - 1); }
  }

  function FirstCall(s: seq<Item>, from: nat, t: nat, ids: set<string>): (k: nat)
    requires from <= t <= |s|
    ensures from <= k <= t
    decreases t - from
  {
    if from == t || (s[from].Call? && s[from].id in ids) then from else FirstCall(s, from + 1, t, ids)
  }

  function StartFrom(s: seq<Item>, t: nat): (start: nat)
    requires t < |s|
    ensures start <= t
  {
    var ids := OutputIds(s[t..]);
    var n := Needed(s, t, t, ids);
    var m := NearestMessage(s, if n >= 0 then n else t);
    if m >= 0 then m else FirstCall(s, 0, t, ids)
  }

  function Sliced(items: seq<Item>): seq<Item> {
    var t := BlockStart(items);
    RemoveUnpaired(if t < 0 then items else items[StartFrom(items, t)..])
  }

  // ---- the loops -----------------------------------------------------------------------

  // What one step of the backward scan adds to each of the notions above.
  lemma StepBack(s: seq<Item>, i: nat, t: nat, ids: set<string>)
    requires i < t <= |s|
    ensures CallIds(s[i..t]) == CallIds(s[i + 1..t]) + (if s[i].Call? then {s[i].id} else {})
    ensures FirstCall(s, i, t, ids) == if s[i].Call? && s[i].id in ids then i else FirstCall(s, i + 1, t, ids)
    ensures !(ids <= CallIds(s[i + 1..t])) ==> Needed(s, i + 1, t, ids) == Needed(s, i, t, ids)
    ensures ids <= CallIds(s[i..t]) ==> Needed(s, i, t, ids) == i
    ensures NearestMessage(s, i + 1) == if s[i].Message? then i else NearestMessage(s, i)
  {
    assert s[i..t] == [s[i]] + s[i + 1..t];
  }

  lemma ScanStarts(s: seq<Item>, t: nat)
    requires BlockStart(s) == t
    ensures t < |s| && OutputIds(s[t..]) != {} && CallIds(s[t..t]) == {}
    ensures FirstCall(s, t, t, OutputIds(s[t..])) == t
    ensures Needed(s, t, t, OutputIds(s[t..])) < t
  {
    assert s[t].Output? && s[t] in s[t..];
    assert s[t].id in OutputIds(s[t..]);
  }

  lemma StartIs(s: seq<Item>, t: nat, start: nat)
    requires BlockStart(s) == t && start <= t
    requires var ids := OutputIds(s[t..]);
             var n := Needed(s, t, t, ids);
             var m := NearestMessage(s, if n >= 0 then n else t);
             start == if m >= 0 then m else FirstCall(s, 0, t, ids)
    ensures RemoveUnpaired(s[start..]) == Sliced(s)
  {
  }

  method FindBlockStart(items: seq<Item>) returns (trailingOutputStart: int)
    ensures trailingOutputStart == BlockStart(items)
  {
    trailingOutputStart := -1;
    var index := |items| - 1;
    while index >= 0
      invariant -1 <= index < |items|
      invariant trailingOutputStart == -1 ==> LastOutput(items) == LastOutput(items[..index + 1])
      invariant trailingOutputStart != -1 ==>
        && trailingOutputStart == index + 1 <= LastOutput(items)
        && items[index + 1].Output?
        && BlockFrom(items, index + 1) == BlockFrom(items, LastOutput(items))
    {
      assert items[..index + 1][..index] == items[..index];
      if items[index].Output? {
        trailingOutputStart := index;
        index := index - 1;
        continue;
      }
      if trailingOutputStart != -1 { break; }
      index := index - 1;
    }
  }

  // What the backward scan knows when all from index k up to the block has been looked at.
  ghost predicate Scanned(items: seq<Item>, t: nat, ids: set<string>, k: nat, startIndex: nat, remaining: set<string>)
    requires k <= t <= |items|
  {
    && remaining == ids - CallIds(items[k..t])
    && startIndex == FirstCall(items, k, t, ids)
    && (if ids <= CallIds(items[k..t])
        then Needed(items, t, t, ids) >= k && NearestMessage(items, Needed(items, t, t, ids)) == NearestMessage(items, k)
        else Needed(items, t, t, ids) == Needed(items, k, t, ids))
  }

  lemma NothingLeft(ids: set<string>, calls: set<string>)
    ensures ids - calls == {} <==> ids <= calls
  {
    if ids - calls == {} {
      forall id | id in ids ensures id in calls { assert id !in ids - calls; }
    }
  }

  lemma ScanAtBlock(items: seq<Item>, t: nat, ids: set<string>)
    requires t <= |items| && CallIds(items[t..t]) == {} && FirstCall(items, t, t, ids) == t && ids != {}
    ensures Scanned(items, t, ids, t, t, ids)
  {
  }

  lemma ScanStep(items: seq<Item>, t: nat, ids: set<string>, k: nat, startIndex: nat, remaining: set<string>)
    requires k < t <= |items| && Scanned(items, t, ids, k + 1, startIndex, remaining)
    requires items[k].Message? ==> remaining != {}
    ensures var matched := items[k].Call? && items[k].id in ids;
            Scanned(items, t, ids, k, if matched then k else startIndex,
                    if matched then remaining - {items[k].id} else remaining)
  {
    StepBack(items, k, t, ids);
    NothingLeft(ids, CallIds(items[k + 1..t]));
  }

  lemma ScanStops(items: seq<Item>, t: nat, ids: set<string>, k: nat, startIndex: nat)
    requires k < t <= |items| && Scanned(items, t, ids, k + 1, startIndex, {}) && items[k].Message?
    ensures Needed(items, t, t, ids) >= 0 && NearestMessage(items, Needed(items, t, t, ids)) == k
  {
    NothingLeft(ids, CallIds(items[k + 1..t]));
  }

  lemma ScanDone(items: seq<Item>, t: nat, ids: set<string>, startIndex: nat, remaining: set<string>)
    requires t <= |items| && Scanned(items, t, ids, 0, startIndex, remaining)
    ensures startIndex == FirstCall(items, 0, t, ids) <= t
    ensures remaining != {} ==> Needed(items, t, t, ids) == -1
    ensures remaining == {} ==>
      Needed(items, t, t, ids) >= 0 && NearestMessage(items, Needed(items, t, t, ids)) == -1
  {
    NothingLeft(ids, CallIds(items[0..t]));
  }

  // Backwards from the block: past the calls it needs, and on to the message before them.
  method ScanToCalls(items: seq<Item>, t: nat, trailingCallIds: set<string>)
    returns (startIndex: nat, remaining: set<string>)
    requires t < |items| && CallIds(items[t..t]) == {} && trailingCallIds != {}
    requires FirstCall(items, t, t, trailingCallIds) == t
    ensures startIndex <= t
    ensures remaining != {} ==>
      Needed(items, t, t, trailingCallIds) == -1 && startIndex == FirstCall(items, 0, t, trailingCallIds)
    ensures remaining == {} ==>
      var n := Needed(items, t, t, trailingCallIds);
      var m := if n >= 0 then NearestMessage(items, n) else -1;
      n >= 0 && startIndex == if m >= 0 then m else FirstCall(items, 0, t, trailingCallIds)
  {
    hide *;
    remaining := trailingCallIds;
    startIndex := t;
    ScanAtBlock(items, t, trailingCallIds);
    var index: int := t - 1;
    while index >= 0
      invariant -1 <= index < t
      invariant Scanned(items, t, trailingCallIds, index + 1, startIndex, remaining)
    {
      var item := items[index];
      if item.Message? && remaining == {} {
        ScanStops(items, t, trailingCallIds, index, startIndex);
        startIndex := index;
        return;
      }
      ScanStep(items, t, trailingCallIds, index, startIndex, remaining);
      if item.Call? && item.id in trailingCallIds {
        startIndex := index;
        remaining := remaining - {item.id};
      }
      index := index - 1;
    }
    ScanDone(items, t, trailingCallIds, startIndex, remaining);
  }

  // The nearest message before the block, or `otherwise`.
  method ScanToMessage(items: seq<Item>, t: nat, otherwise: nat) returns (startIndex: nat)
    requires t < |items|
    ensures startIndex == if NearestMessage(items, t) >= 0 then NearestMessage(items, t) else otherwise
  {
    startIndex := otherwise;
    var index := t - 1;
    while index >= 0
      invariant -1 <= index < t
      invariant NearestMessage(items, t) == NearestMessage(items, index + 1)
      invariant startIndex == otherwise
    {
      if items[index].Message? {
        startIndex := index;
        return;
      }
      index := index - 1;
    }
  }

  method SliceResponsesInputToLatestToolTurn(items: seq<Item>) returns (result: seq<Item>)
    ensures result == Sliced(items)
  {
    var t := FindBlockStart(items);
    if t == -1 { return RemoveUnpaired(items); }
    hide *;
    ScanStarts(items, t);
    var startIndex, remaining := ScanToCalls(items, t, OutputIds(items[t..]));
    if remaining != {} {
      startIndex := ScanToMessage(items, t, startIndex);
    }
    StartIs(items, t, startIndex);
    result := RemoveUnpaired(items[startIndex..]);
  }

  // ---- main results --------------------------------------------------------------------

  // The slice is a filtered suffix in which calls and outputs pair up, and pairing again
  // changes nothing.
  lemma SliceIsPaired(items: seq<Item>)
    ensures exists start: nat :: start <= |items| && Sliced(items) == RemoveUnpaired(items[start..])
    ensures CallIds(Sliced(items)) == OutputIds(Sliced(items))
    ensures RemoveUnpaired(Sliced(items)) == Sliced(items)
  {
    var t := BlockStart(items);
    var start := if t < 0 then 0 else StartFrom(items, t);
    assert items[0..] == items;
    PairedIds(items[start..]);
    PairingIsIdempotent(items[start..]);
  }

  // Items t to end are the last contiguous run of outputs.
  predicate LatestBlock(items: seq<Item>, t: nat, end: nat) {
    && t < end <= |items|
    && (forall i :: t <= i < end ==> items[i].Output?)
    && (t > 0 ==> !items[t - 1].Output?)
    && (forall i :: end <= i < |items| ==> !items[i].Output?)
  }

  lemma BlockIsFound(items: seq<Item>, t: nat, end: nat)
    requires LatestBlock(items, t, end)
    ensures BlockStart(items) == t && LastOutput(items) == end - 1
  {
    assert items[end - 1].Output?;
    assert LastOutput(items) == end - 1;
    assert BlockFrom(items, end - 1) >= t;
  }

  // Without an output nothing is cut off; only the calls go, none of which was answered.
  lemma NoOutputNoTurn(items: seq<Item>, x: Item)
    requires forall i :: 0 <= i < |items| ==> !items[i].Output?
    ensures multiset(Sliced(items))[x] == if x.Call? then 0 else multiset(items)[x]
  {
    assert BlockStart(items) == -1;
    SurvivesIffPartnered(items, x);
    if x.Output? { assert x !in items; }
  }

  // n is the earliest of the latest calls that the ids of the block need.
  ghost predicate EarliestOfLatest(items: seq<Item>, n: nat, t: nat, ids: set<string>)
    requires t <= |items|
  {
    && n < t
    && items[n].Call? && items[n].id in ids
    && (forall k :: n < k < t && items[k].Call? ==> items[k].id != items[n].id)
    && (forall id :: id in ids ==> exists k :: n <= k < t && items[k].Call? && items[k].id == id)
  }

  lemma NeededIsEarliestOfLatest(items: seq<Item>, t: nat, ids: set<string>)
    requires t <= |items| && ids != {} && ids <= CallIds(items[..t])
    ensures 0 <= Needed(items, t, t, ids)
    ensures EarliestOfLatest(items, Needed(items, t, t, ids), t, ids)
  {
    hide *;
    NeededIsHighest(items, t, t, ids);
    var n := Needed(items, t, t, ids);
    assert items[0..t] == items[..t];
    NoCalls(items, t);
    StepBack(items, n, t, ids);
    EarliestFrom(items, n, t, ids);
  }

  lemma NoCalls(items: seq<Item>, t: nat)
    requires t <= |items|
    ensures CallIds(items[t..t]) == {}
  {
  }

  lemma EarliestFrom(items: seq<Item>, n: nat, t: nat, ids: set<string>)
    requires n < t <= |items| && ids <= CallIds(items[n..t]) && !(ids <= CallIds(items[n + 1..t]))
    requires CallIds(items[n..t]) == CallIds(items[n + 1..t]) + (if items[n].Call? then {items[n].id} else {})
    ensures EarliestOfLatest(items, n, t, ids)
  {
    forall id | id in ids ensures exists k :: n <= k < t && items[k].Call? && items[k].id == id {
      var c :| c in items[n..t] && c.Call? && c.id == id;
      var k :| 0 <= k < |items[n..t]| && items[n..t][k] == c;
      assert items[n + k] == c;
    }
    assert items[n].id !in CallIds(items[n + 1..t]);
    forall k | n < k < t && items[k].Call? ensures items[k].id in CallIds(items[n + 1..t]) {
      assert items[k] == items[n + 1..t][k - n - 1];
    }
  }

  // The slice starts at the nearest message before n; without one, at the first call with one of
  // these ids, or at the block when there is none.
  ghost predicate StartsRight(items: seq<Item>, start: nat, n: nat, t: nat, ids: set<string>)
    requires n <= t < |items|
  {
    if exists m :: 0 <= m < n && items[m].Message?
    then start < n && items[start].Message? && forall i :: start < i < n ==> !items[i].Message?
    else
      && start <= t
      && (start < t ==> items[start].Call? && items[start].id in ids)
      && (forall i :: 0 <= i < start ==> !(items[i].Call? && items[i].id in ids))
  }

  // Of s, all that is no tool item and all calls with one of these ids survive in r.
  ghost predicate CallsSurvive(s: seq<Item>, r: seq<Item>, ids: set<string>) {
    forall x :: x in s && !x.Output? && (x.Call? ==> x.id in ids) ==> multiset(r)[x] == multiset(s)[x]
  }

  // When every output of the last block has an earlier call, the block survives whole, with
  // the calls it needs, from the nearest message before the earliest of those calls; with no such
  // message, from the first call with an id of the block.
  lemma CoveredBlocksSurvive(items: seq<Item>, t: nat, end: nat)
    returns (n: nat, start: nat, before: seq<Item>, after: seq<Item>)
    requires LatestBlock(items, t, end)
    requires OutputIds(items[t..]) <= CallIds(items[..t])
    ensures n < t < end <= |items| && EarliestOfLatest(items, n, t, OutputIds(items[t..]))
    ensures StartsRight(items, start, n, t, OutputIds(items[t..])) && start <= n
    ensures Sliced(items) == RemoveUnpaired(items[start..])
    ensures CallsSurvive(items[start..], Sliced(items), OutputIds(items[t..]))
    ensures Sliced(items) == before + items[t..end] + after
  {
    hide *;
    BlockIsFound(items, t, end);
    ScanStarts(items, t);
    NeededIsEarliestOfLatest(items, t, OutputIds(items[t..]));
    n := Needed(items, t, t, OutputIds(items[t..]));
    StartsBefore(items, t, n);
    EarliestBound(items, n, t, OutputIds(items[t..]));
    start := StartFrom(items, t);
    SuffixIds(items, start, n, t);
    Survivors(items[start..], OutputIds(items[t..]));
    SlicedIs(items, t);
    BlockEnds(items, t, end);
    before, after := BlockIsWhole(items, start, t, end);
  }

  lemma EarliestBound(items: seq<Item>, n: nat, t: nat, ids: set<string>)
    requires t <= |items| && EarliestOfLatest(items, n, t, ids)
    ensures n < t
  {
  }

  lemma SlicedIs(items: seq<Item>, t: nat)
    requires t < |items| && BlockStart(items) == t
    ensures Sliced(items) == RemoveUnpaired(items[StartFrom(items, t)..])
  {
  }

  lemma BlockEnds(items: seq<Item>, t: nat, end: nat)
    requires BlockStart(items) == t && end == LastOutput(items) + 1
    ensures t < end <= |items|
    ensures forall i :: t <= i < end ==> items[i].Output?
  {
  }

  lemma Survivors(s: seq<Item>, ids: set<string>)
    requires ids <= OutputIds(s)
    ensures CallsSurvive(s, RemoveUnpaired(s), ids)
  {
    forall x | x in s && !x.Output? && (x.Call? ==> x.id in ids)
      ensures multiset(RemoveUnpaired(s))[x] == multiset(s)[x]
    {
      SurvivesIffPartnered(s, x);
    }
  }

  lemma BlockIsWhole(items: seq<Item>, start: nat, t: nat, end: nat) returns (before: seq<Item>, after: seq<Item>)
    requires start <= t < end <= |items|
    requires forall i :: t <= i < end ==> items[i].Output?
    requires OutputIds(items[t..]) <= CallIds(items[start..])
    ensures RemoveUnpaired(items[start..]) == before + items[t..end] + after
  {
    hide *;
    var s := items[start..];
    var a, b, c := items[start..t], items[t..end], items[end..];
    var calls, outputs := CallIds(s), OutputIds(s);
    assert s == (a + b) + c;
    FilterSplits(a + b, c, calls, outputs);
    FilterSplits(a, b, calls, outputs);
    BlockIsKept(items, t, end, calls, outputs);
    FilterAll(b, calls, outputs);
    RemoveIsFilter(s);
    before, after := Filter(a, calls, outputs), Filter(c, calls, outputs);
  }

  lemma RemoveIsFilter(s: seq<Item>)
    ensures RemoveUnpaired(s) == Filter(s, CallIds(s), OutputIds(s))
  {
  }

  lemma BlockIsKept(items: seq<Item>, t: nat, end: nat, calls: set<string>, outputs: set<string>)
    requires t < end <= |items| && OutputIds(items[t..]) <= calls
    requires forall i :: t <= i < end ==> items[i].Output?
    ensures forall x :: x in items[t..end] ==> Kept(x, calls, outputs)
  {
    forall x | x in items[t..end] ensures Kept(x, calls, outputs) {
      var k :| 0 <= k < |items[t..end]| && items[t..end][k] == x;
      assert items[t..][k] == x;
      assert x.id in OutputIds(items[t..]);
    }
  }

  // Otherwise the slice starts at the nearest message before the block; without one, at the first
  // call with an id of the block, or at the block.
  lemma UncoveredBlocksStartAtMessage(items: seq<Item>, t: nat, end: nat) returns (start: nat)
    requires LatestBlock(items, t, end) && !(OutputIds(items[t..]) <= CallIds(items[..t]))
    ensures t < |items| && StartsRight(items, start, t, t, OutputIds(items[t..]))
    ensures Sliced(items) == RemoveUnpaired(items[start..])
  {
    hide *;
    BlockIsFound(items, t, end);
    BlockEnds(items, t, end);
    SlicedIs(items, t);
    NeverCovered(items, t, OutputIds(items[t..]));
    start := StartFrom(items, t);
    StartUncovered(items, t);
  }

  lemma NeverCovered(items: seq<Item>, t: nat, ids: set<string>)
    requires t <= |items| && !(ids <= CallIds(items[..t]))
    ensures Needed(items, t, t, ids) == -1
  {
    NeededIsHighest(items, t, t, ids);
    CoveredFrom(items, t, ids);
  }

  lemma CoveredFrom(items: seq<Item>, t: nat, ids: set<string>)
    requires t <= |items|
    ensures forall n :: 0 <= n <= t && ids <= CallIds(items[n..t]) ==> ids <= CallIds(items[..t])
  {
    forall n | 0 <= n <= t && ids <= CallIds(items[n..t]) ensures ids <= CallIds(items[..t]) {
      assert items[..t] == items[..n] + items[n..t];
    }
  }

  lemma StartUncovered(items: seq<Item>, t: nat)
    requires t < |items| && Needed(items, t, t, OutputIds(items[t..])) == -1
    ensures StartsRight(items, StartFrom(items, t), t, t, OutputIds(items[t..])) && StartFrom(items, t) <= t
  {
    hide OutputIds, Needed, NearestMessage, FirstCall;
    NearestMessageIsNearest(items, t);
    FirstCallIs(items, 0, t, OutputIds(items[t..]));
  }

  lemma StartsBefore(items: seq<Item>, t: nat, n: nat)
    requires t < |items| && Needed(items, t, t, OutputIds(items[t..])) == n
    requires EarliestOfLatest(items, n, t, OutputIds(items[t..]))
    ensures n < t && StartsRight(items, StartFrom(items, t), n, t, OutputIds(items[t..])) && StartFrom(items, t) <= n
  {
    hide OutputIds, Needed, NearestMessage, FirstCall;
    NearestMessageIsNearest(items, n);
    FirstCallIs(items, 0, t, OutputIds(items[t..]));
    FirstCallIsFirst(items, 0, t, OutputIds(items[t..]), n);
  }

  lemma {:induction false} FirstCallIs(s: seq<Item>, from: nat, t: nat, ids: set<string>)
    requires from <= t <= |s|
    ensures FirstCall(s, from, t, ids) < t ==> s[FirstCall(s, from, t, ids)].Call? && s[FirstCall(s, from, t, ids)].id in ids
    ensures forall i :: from <= i < FirstCall(s, from, t, ids) ==> !(s[i].Call? && s[i].id in ids)
    decreases t - from
  {
    if from < t && !(s[from].Call? && s[from].id in ids) { FirstCallIs(s, from + 1, t, ids); }
  }

  lemma {:induction false} FirstCallIsFirst(s: seq<Item>, from: nat, t: nat, ids: set<string>, k: nat)
    requires from <= k < t <= |s| && s[k].Call? && s[k].id in ids
    ensures FirstCall(s, from, t, ids) <= k
    decreases t - from
  {
    if !(s[from].Call? && s[from].id in ids) { FirstCallIsFirst(s, from + 1, t, ids, k); }
  }

  lemma SuffixIds(items: seq<Item>, start: nat, n: nat, t: nat)
    requires start <= n < t <= |items|
    requires EarliestOfLatest(items, n, t, OutputIds(items[t..]))
    ensures OutputIds(items[t..]) <= CallIds(items[start..])
    ensures OutputIds(items[t..]) <= OutputIds(items[start..])
  {
    assert items[start..] == items[start..t] + items[t..];
    forall id | id in OutputIds(items[t..]) ensures id in CallIds(items[start..]) {
      var k :| n <= k < t && items[k].Call? && items[k].id == id;
      assert items[start..][k - start] == items[k];
    }
  }
}

/** Canonical JSON text, the fingerprint by which the ledger tells two requests apart. */
module CanonicalJson {
  import opened JsonText

  // "__proto__": assigning it to a plain object sets the prototype and adds no member.
  const PROTO: Text := [0x5F, 0x5F, 0x70, 0x72, 0x6F, 0x74, 0x6F, 0x5F, 0x5F]

  // ---- the order in which keys are printed ---------------------------------------------

  predicate Before(a: Text, b: Text) {
    a == [] || (b != [] && (a[0] < b[0] || (a[0] == b[0] && Before(a[1..], b[1..]))))
  }

  // 4294967294, the largest array index.
  const LAST_INDEX: Text := [0x34, 0x32, 0x39, 0x34, 0x39, 0x36, 0x37, 0x32, 0x39, 0x34]

  predicate IndexKey(t: Text) {
    && t != []
    && (forall i :: 0 <= i < |t| ==> 0x30 <= t[i] <= 0x39)
    && (|t| > 1 ==> t[0] != 0x30)
    && (|t| < |LAST_INDEX| || (|t| == |LAST_INDEX| && Before(t, LAST_INDEX)))
  }

  // Own keys are listed array indices first, in numeric order, and then as sort() left them.
  predicate Listed(a: Text, b: Text) {
    if IndexKey(a) then !IndexKey(b) || |a| < |b| || (|a| == |b| && Before(a, b))
    else !IndexKey(b) && Before(a, b)
  }

  lemma {:induction false} BeforeIsTotal(a: Text, b: Text)
    ensures Before(a, b) || Before(b, a)
    ensures Before(a, b) && Before(b, a) ==> a == b
  {
    if a != [] && b != [] && a[0] == b[0] {
      BeforeIsTotal(a[1..], b[1..]);
      assert a == [a[0]] + a[1..] && b == [b[0]] + b[1..];
    }
  }

  lemma {:induction false} BeforeIsTransitive(a: Text, b: Text, c: Text)
    requires Before(a, b) && Before(b, c)
    ensures Before(a, c)
  {
    if a != [] && a[0] == b[0] == c[0] { BeforeIsTransitive(a[1..], b[1..], c[1..]); }
  }

  lemma ListedIsTotal(a: Text, b: Text)
    ensures Listed(a, b) || Listed(b, a)
    ensures Listed(a, b) && Listed(b, a) ==> a == b
  {
    BeforeIsTotal(a, b);
  }

  lemma ListedIsTransitive(a: Text, b: Text, c: Text)
    requires Listed(a, b) && Listed(b, c)
    ensures Listed(a, c)
  {
    if Before(a, b) && Before(b, c) { BeforeIsTransitive(a, b, c); }
  }

  // ---- sorting members -----------------------------------------------------------------

  function Insert(m: Member, s: seq<Member>): seq<Member> {
    if s == [] || Listed(m.key, s[0].key) then [m] + s else [s[0]] + Insert(m, s[1..])
  }

  function Sort(s: seq<Member>): seq<Member> {
    if s == [] then [] else Insert(s[0], Sort(s[1..]))
  }

  predicate Ordered(s: seq<Member>) {
    forall i, j :: 0 <= i < j < |s| ==> Listed(s[i].key, s[j].key)
  }

  lemma {:induction false} InsertHas(m: Member, s: seq<Member>, x: Member)
    ensures x in Insert(m, s) <==> x == m || x in s
    ensures |Insert(m, s)| == |s| + 1
  {
    if s != [] && !Listed(m.key, s[0].key) { InsertHas(m, s[1..], x); }
  }

  lemma {:induction false} InsertOrders(m: Member, s: seq<Member>)
    requires Ordered(s)
    ensures Ordered(Insert(m, s))
  {
    if s == [] {
    } else if Listed(m.key, s[0].key) {
      forall j | 0 <= j < |s| ensures Listed(m.key, s[j].key) {
        if j > 0 { ListedIsTransitive(m.key, s[0].key, s[j].key); }
      }
    } else {
      ListedIsTotal(m.key, s[0].key);
      InsertOrders(m, s[1..]);
      var t := Insert(m, s[1..]);
      forall j | 0 <= j < |t| ensures Listed(s[0].key, t[j].key) {
        InsertHas(m, s[1..], t[j]);
        assert t[j] in t;
      }
    }
  }

  lemma {:induction false} SortOrders(s: seq<Member>)
    ensures Ordered(Sort(s))
  {
    if s != [] {
      SortOrders(s[1..]);
      InsertOrders(s[0], Sort(s[1..]));
    }
  }

  lemma {:induction false} SortHas(s: seq<Member>, x: Member)
    ensures x in Sort(s) <==> x in s
    ensures |Sort(s)| == |s|
  {
    if s != [] {
      InsertHas(s[0], Sort(s[1..]), x);
      SortHas(s[1..], x);
      assert x in s <==> x == s[0] || x in s[1..];
    }
  }

  predicate SameMembers(s: seq<Member>, t: seq<Member>) {
    && (forall x :: x in s ==> x in t)
    && (forall x :: x in t ==> x in s)
  }

  lemma {:induction false} InsertKeepsDistinct(m: Member, s: seq<Member>)
    requires DistinctKeys(s) && forall x :: x in s ==> x.key != m.key
    ensures DistinctKeys(Insert(m, s))
  {
    if s != [] && !Listed(m.key, s[0].key) {
      InsertKeepsDistinct(m, s[1..]);
      var t := Insert(m, s[1..]);
      forall j | 0 <= j < |t| ensures t[j].key != s[0].key {
        InsertHas(m, s[1..], t[j]);
        assert t[j] in t;
      }
    }
  }

  lemma {:induction false} SortKeepsDistinct(s: seq<Member>)
    requires DistinctKeys(s)
    ensures DistinctKeys(Sort(s))
  {
    if s != [] {
      SortKeepsDistinct(s[1..]);
      forall x | x in Sort(s[1..]) ensures x.key != s[0].key { SortHas(s[1..], x); }
      InsertKeepsDistinct(s[0], Sort(s[1..]));
    }
  }

  // Ordered members with distinct keys are fixed by which members they are.
  lemma {:induction false} OrderedIsUnique(s: seq<Member>, t: seq<Member>)
    requires Ordered(s) && Ordered(t) && DistinctKeys(s) && DistinctKeys(t) && SameMembers(s, t)
    ensures s == t
  {
    assert s != [] ==> s[0] in s;
    assert t != [] ==> t[0] in t;
    if s != [] {
      var i :| 0 <= i < |s| && s[i] == t[0];
      var j :| 0 <= j < |t| && t[j] == s[0];
      ListedIsTotal(s[0].key, t[0].key);
      assert s[0] == t[0];
      forall x | x in s[1..] ensures x in t[1..] { assert x in s; }
      forall x | x in t[1..] ensures x in s[1..] { assert x in t; }
      OrderedIsUnique(s[1..], t[1..]);
      assert s == [s[0]] + s[1..] && t == [t[0]] + t[1..];
    }
  }

  lemma SortIsCanonical(s: seq<Member>, t: seq<Member>)
    requires DistinctKeys(s) && DistinctKeys(t)
    ensures Sort(s) == Sort(t) <==> SameMembers(s, t)
  {
    forall x ensures (x in Sort(s) <==> x in s) && (x in Sort(t) <==> x in t) {
      SortHas(s, x);
      SortHas(t, x);
    }
    if SameMembers(s, t) {
      SortOrders(s);
      SortOrders(t);
      SortKeepsDistinct(s);
      SortKeepsDistinct(t);
      OrderedIsUnique(Sort(s), Sort(t));
    }
  }

  // ---- canonical values ----------------------------------------------------------------

  // The members an assignment key by key leaves on a fresh object.
  function Assigned(members: seq<Member>): seq<Member> {
    if members == [] then []
    else (if members[0].key == PROTO then [] else [members[0]]) + Assigned(members[1..])
  }

  function Canonical(j: Json): Json {
    match j
    case NegativeZero => Num(ZERO_TEXT)
    case Arr(items) => Arr(seq(|items|, i requires 0 <= i < |items| => Canonical(items[i])))
    case Obj(members) =>
      Obj(Sort(Assigned(seq(|members|, i requires 0 <= i < |members| => Member(members[i].key, Canonical(members[i].value))))))
    case _ => j
  }

  datatype Failure = NotJson | TooLong
  datatype Outcome = Text(text: Text) | Rejected(why: Failure)

  // Bytes in UTF-8; a lone surrogate counts as its replacement character.
  function ByteLength(t: Text): nat {
    if t == [] then 0
    else if HighSurrogate(t[0]) && |t| > 1 && LowSurrogate(t[1]) then 4 + ByteLength(t[2..])
    else (if t[0] < 0x80 then 1 else if t[0] < 0x800 then 2 else 3) + ByteLength(t[1..])
  }

  function CanonicalJson(j: Json, maxBytes: nat): Outcome {
    if !AllJson(j) then Rejected(NotJson)
    else
      var text := Printed(Canonical(j));
      if ByteLength(text) > maxBytes then Rejected(TooLong) else Text(text)
  }

  // ---- equality of JSON values ---------------------------------------------------------

  // The same value up to the order of members, with -0 as 0, where members named in `but` are
  // left out of account.
  predicate Equal(a: Json, b: Json, but: set<Text>)
    decreases a
  {
    match a
    case Null => b.Null?
    case Bool(value) => b == a
    case Num(token) => b == a || (token == ZERO_TEXT && b.NegativeZero?)
    case NegativeZero => b.NegativeZero? || b == Num(ZERO_TEXT)
    case Str(text) => b == a
    case Arr(items) =>
      && b.Arr? && |items| == |b.items|
      && forall i :: 0 <= i < |items| ==> Equal(items[i], b.items[i], but)
    case Obj(members) =>
      && b.Obj?
      && (forall i :: 0 <= i < |members| && members[i].key !in but ==> HasKey(b.members, members[i].key))
      && (forall i :: 0 <= i < |b.members| && b.members[i].key !in but ==> HasKey(members, b.members[i].key))
      && forall i, k :: 0 <= i < |members| && 0 <= k < |b.members| && members[i].key == b.members[k].key && members[i].key !in but ==>
           Equal(members[i].value, b.members[k].value, but)
    case Foreign(_) => b == a
  }

  predicate HasKey(members: seq<Member>, key: Text) {
    exists k :: 0 <= k < |members| && members[k].key == key
  }

  // No object in the value has a member named __proto__.
  predicate NoProto(j: Json) {
    match j
    case Arr(items) => forall i :: 0 <= i < |items| ==> NoProto(items[i])
    case Obj(members) => forall i :: 0 <= i < |members| ==> members[i].key != PROTO && NoProto(members[i].value)
    case _ => true
  }

  // ---- proofs --------------------------------------------------------------------------

  lemma {:induction false} AssignedHas(members: seq<Member>, x: Member)
    ensures x in Assigned(members) <==> x in members && x.key != PROTO
  {
    if members != [] {
      AssignedHas(members[1..], x);
      assert x in members <==> x == members[0] || x in members[1..];
    }
  }

  lemma {:induction false} AssignedKeepsDistinct(members: seq<Member>)
    requires DistinctKeys(members)
    ensures DistinctKeys(Assigned(members))
  {
    if members != [] {
      AssignedKeepsDistinct(members[1..]);
      forall x | x in Assigned(members[1..]) ensures x.key != members[0].key { AssignedHas(members[1..], x); }
    }
  }

  function Mapped(j: Json): (s: seq<Member>)
    requires j.Obj?
    ensures |s| == |j.members|
  {
    seq(|j.members|, i requires 0 <= i < |j.members| => Member(j.members[i].key, Canonical(j.members[i].value)))
  }

  function Kept(j: Json): seq<Member>
    requires j.Obj?
  {
    Assigned(Mapped(j))
  }

  lemma MappedDistinct(j: Json)
    requires j.Obj? && DistinctKeys(j.members)
    ensures DistinctKeys(Mapped(j)) && DistinctKeys(Kept(j))
  {
    AssignedKeepsDistinct(Mapped(j));
  }

  lemma CanonicalObject(j: Json)
    requires j.Obj?
    ensures Canonical(j) == Obj(Sort(Kept(j)))
  {
    assert Mapped(j)
        == seq(|j.members|, i requires 0 <= i < |j.members| => Member(j.members[i].key, Canonical(j.members[i].value)));
  }

  lemma KeptHas(j: Json, x: Member)
    requires j.Obj?
    ensures x in Kept(j) <==>
            exists i :: 0 <= i < |j.members| && j.members[i].key != PROTO && x == Member(j.members[i].key, Canonical(j.members[i].value))
  {
    AssignedHas(Mapped(j), x);
    if x in Kept(j) {
      var i :| 0 <= i < |Mapped(j)| && Mapped(j)[i] == x;
      assert j.members[i].key == x.key;
    }
    if i :| 0 <= i < |j.members| && j.members[i].key != PROTO && x == Member(j.members[i].key, Canonical(j.members[i].value)) {
      assert Mapped(j)[i] == x;
    }
  }

  // Members i of a and k of b canonicalize alike exactly when they are equal.
  predicate Settled(a: Json, b: Json, i: nat, k: nat)
    requires a.Obj? && b.Obj? && i < |a.members| && k < |b.members|
  {
    Canonical(a.members[i].value) == Canonical(b.members[k].value)
    <==> Equal(a.members[i].value, b.members[k].value, {PROTO})
  }

  predicate AllSettled(a: Json, b: Json)
    requires a.Obj? && b.Obj?
  {
    forall i, k :: 0 <= i < |a.members| && 0 <= k < |b.members| ==> Settled(a, b, i, k)
  }

  predicate Matching(a: Json, b: Json)
    requires a.Obj? && b.Obj?
  {
    && (forall i :: 0 <= i < |a.members| && a.members[i].key != PROTO ==> HasKey(b.members, a.members[i].key))
    && (forall i :: 0 <= i < |b.members| && b.members[i].key != PROTO ==> HasKey(a.members, b.members[i].key))
    && (forall i, k :: 0 <= i < |a.members| && 0 <= k < |b.members| && a.members[i].key == b.members[k].key && a.members[i].key != PROTO ==>
          Canonical(a.members[i].value) == Canonical(b.members[k].value))
  }

  lemma MatchingIsEqual(a: Json, b: Json)
    requires a.Obj? && b.Obj? && AllSettled(a, b)
    ensures Matching(a, b) <==> Equal(a, b, {PROTO})
  {
    forall i, k | 0 <= i < |a.members| && 0 <= k < |b.members|
      ensures Canonical(a.members[i].value) == Canonical(b.members[k].value)
              <==> Equal(a.members[i].value, b.members[k].value, {PROTO})
    {
      assert Settled(a, b, i, k);
    }
  }

  lemma MatchingMembers(a: Json, b: Json, x: Member)
    requires a.Obj? && b.Obj? && Matching(a, b) && x in Kept(a)
    ensures x in Kept(b)
  {
    KeptHas(a, x);
    var i :| 0 <= i < |a.members| && a.members[i].key != PROTO && x == Member(a.members[i].key, Canonical(a.members[i].value));
    assert HasKey(b.members, a.members[i].key);
    var k :| 0 <= k < |b.members| && b.members[k].key == a.members[i].key;
    KeptHas(b, x);
  }

  lemma MatchingSymmetric(a: Json, b: Json)
    requires a.Obj? && b.Obj? && Matching(a, b)
    ensures Matching(b, a)
  {
  }

  lemma SameIsMatchingKey(a: Json, b: Json, i: nat)
    requires a.Obj? && b.Obj? && SameMembers(Kept(a), Kept(b)) && i < |a.members| && a.members[i].key != PROTO
    ensures exists k :: 0 <= k < |b.members| && b.members[k].key == a.members[i].key
                        && Canonical(a.members[i].value) == Canonical(b.members[k].value)
  {
    var x := Member(a.members[i].key, Canonical(a.members[i].value));
    KeptHas(a, x);
    KeptHas(b, x);
  }

  lemma SameIsMatching(a: Json, b: Json)
    requires a.Obj? && b.Obj? && DistinctKeys(a.members) && DistinctKeys(b.members)
    ensures SameMembers(Kept(a), Kept(b)) <==> Matching(a, b)
  {
    if SameMembers(Kept(a), Kept(b)) {
      forall i | 0 <= i < |a.members| && a.members[i].key != PROTO
        ensures HasKey(b.members, a.members[i].key)
        ensures forall k :: 0 <= k < |b.members| && a.members[i].key == b.members[k].key ==>
                  Canonical(a.members[i].value) == Canonical(b.members[k].value)
      {
        SameIsMatchingKey(a, b, i);
      }
      forall i | 0 <= i < |b.members| && b.members[i].key != PROTO ensures HasKey(a.members, b.members[i].key) {
        SameIsMatchingKey(b, a, i);
      }
    }
    if Matching(a, b) {
      MatchingSymmetric(a, b);
      forall x | x in Kept(a) ensures x in Kept(b) { MatchingMembers(a, b, x); }
      forall x | x in Kept(b) ensures x in Kept(a) { MatchingMembers(b, a, x); }
    }
  }

  lemma ObjectsAgree(a: Json, b: Json)
    requires a.Obj? && b.Obj? && DistinctKeys(a.members) && DistinctKeys(b.members) && AllSettled(a, b)
    ensures Canonical(a) == Canonical(b) <==> Equal(a, b, {PROTO})
  {
    hide *;
    CanonicalObject(a);
    CanonicalObject(b);
    MappedDistinct(a);
    MappedDistinct(b);
    SortIsCanonical(Kept(a), Kept(b));
    SameIsMatching(a, b);
    MatchingIsEqual(a, b);
  }

  lemma ArraysAgree(a: Json, b: Json)
    requires a.Arr? && b.Arr?
    requires forall i :: 0 <= i < |a.items| && i < |b.items| ==>
               (Canonical(a.items[i]) == Canonical(b.items[i]) <==> Equal(a.items[i], b.items[i], {PROTO}))
    ensures Canonical(a) == Canonical(b) <==> Equal(a, b, {PROTO})
  {
    var ca, cb := Canonical(a).items, Canonical(b).items;
    assert |ca| == |a.items| && |cb| == |b.items|;
    assert forall i :: 0 <= i < |a.items| ==> ca[i] == Canonical(a.items[i]);
    assert forall i :: 0 <= i < |b.items| ==> cb[i] == Canonical(b.items[i]);
    if Equal(a, b, {PROTO}) { assert ca == cb; }
  }

  lemma Sorts(a: Json, b: Json)
    requires !(a.Arr? && b.Arr?) && !(a.Obj? && b.Obj?)
    ensures Canonical(a) == Canonical(b) <==> Equal(a, b, {PROTO})
  {
  }

  // Two values have the same canonical form exactly when they are equal up to member order,
  // with -0 as 0, leaving out members named __proto__.
  lemma {:induction false} CanonicalDecidesEquality(a: Json, b: Json)
    requires WellFormed(a) && WellFormed(b)
    ensures Canonical(a) == Canonical(b) <==> Equal(a, b, {PROTO})
    decreases a
  {
    if a.Arr? && b.Arr? {
      forall i | 0 <= i < |a.items| && i < |b.items|
        ensures Canonical(a.items[i]) == Canonical(b.items[i]) <==> Equal(a.items[i], b.items[i], {PROTO})
      {
        CanonicalDecidesEquality(a.items[i], b.items[i]);
      }
      ArraysAgree(a, b);
    } else if a.Obj? && b.Obj? {
      forall i, k | 0 <= i < |a.members| && 0 <= k < |b.members| ensures Settled(a, b, i, k) {
        CanonicalDecidesEquality(a.members[i].value, b.members[k].value);
      }
      ObjectsAgree(a, b);
    } else {
      Sorts(a, b);
    }
  }

  // ---- canonical values are printable --------------------------------------------------

  // Where a member of a canonical object comes from.
  lemma CanonicalMember(j: Json, x: Member) returns (i: nat)
    requires j.Obj? && x in Canonical(j).members
    ensures i < |j.members| && j.members[i].key == x.key != PROTO && x.value == Canonical(j.members[i].value)
  {
    CanonicalObject(j);
    SortHas(Kept(j), x);
    KeptHas(j, x);
    i :| 0 <= i < |j.members| && j.members[i].key != PROTO && x == Member(j.members[i].key, Canonical(j.members[i].value));
  }

  lemma {:induction false} CanonicalIsPlain(j: Json)
    requires WellFormed(j) && AllJson(j)
    ensures WellFormed(Canonical(j)) && Plain(Canonical(j)) && NoProto(Canonical(j))
    decreases j
  {
    match j
    case Arr(items) =>
      forall i | 0 <= i < |items|
        ensures WellFormed(Canonical(items[i])) && Plain(Canonical(items[i])) && NoProto(Canonical(items[i]))
      {
        CanonicalIsPlain(items[i]);
      }
    case Obj(members) =>
      CanonicalObject(j);
      MappedDistinct(j);
      SortKeepsDistinct(Kept(j));
      var c := Canonical(j);
      forall k | 0 <= k < |c.members|
        ensures c.members[k].key != PROTO
        ensures WellFormed(c.members[k].value) && Plain(c.members[k].value) && NoProto(c.members[k].value)
      {
        var i := CanonicalMember(j, c.members[k]);
        CanonicalIsPlain(members[i].value);
      }
    case _ =>
  }

  lemma {:induction false} AssignedKeepsAll(members: seq<Member>)
    requires forall x :: x in members ==> x.key != PROTO
    ensures Assigned(members) == members
  {
    if members != [] { AssignedKeepsAll(members[1..]); }
  }

  lemma SortedStays(s: seq<Member>)
    requires Ordered(s) && DistinctKeys(s)
    ensures Sort(s) == s
  {
    SortOrders(s);
    SortKeepsDistinct(s);
    forall x ensures x in Sort(s) <==> x in s { SortHas(s, x); }
    OrderedIsUnique(Sort(s), s);
  }

  lemma {:induction false} CanonicalIsIdempotent(j: Json)
    requires WellFormed(j)
    ensures Canonical(Canonical(j)) == Canonical(j)
    decreases j
  {
    match j
    case Arr(items) =>
      forall i | 0 <= i < |items| ensures Canonical(Canonical(items[i])) == Canonical(items[i]) {
        CanonicalIsIdempotent(items[i]);
      }
      assert Canonical(Canonical(j)).items == Canonical(j).items;
    case Obj(members) =>
      var c := Canonical(j);
      CanonicalObject(j);
      CanonicalObject(c);
      MappedDistinct(j);
      SortKeepsDistinct(Kept(j));
      SortOrders(Kept(j));
      forall k | 0 <= k < |c.members| ensures Canonical(c.members[k].value) == c.members[k].value && c.members[k].key != PROTO {
        var i := CanonicalMember(j, c.members[k]);
        CanonicalIsIdempotent(members[i].value);
      }
      assert Mapped(c) == c.members;
      AssignedKeepsAll(c.members);
      SortedStays(c.members);
    case _ =>
  }

  // ---- main results --------------------------------------------------------------------

  // Two accepted values have the same fingerprint exactly when they are equal up to member
  // order, with -0 as 0, leaving out of account every member named __proto__.
  lemma FingerprintsDecideEquality(a: Json, b: Json, maxBytes: nat)
    requires WellFormed(a) && WellFormed(b)
    requires CanonicalJson(a, maxBytes).Text? && CanonicalJson(b, maxBytes).Text?
    ensures CanonicalJson(a, maxBytes) == CanonicalJson(b, maxBytes) <==> Equal(a, b, {PROTO})
  {
    CanonicalIsPlain(a);
    CanonicalIsPlain(b);
    CanonicalDecidesEquality(a, b);
    if Printed(Canonical(a)) == Printed(Canonical(b)) {
      assert Printed(Canonical(a)) + [] == Printed(Canonical(b)) + [];
      PrintedIsUnambiguous(Canonical(a), [], Canonical(b), []);
    }
  }

  // x is the value or a part of it.
  ghost predicate Part(x: Json, j: Json)
    decreases j
  {
    || x == j
    || (j.Arr? && exists i :: 0 <= i < |j.items| && Part(x, j.items[i]))
    || (j.Obj? && exists i :: 0 <= i < |j.members| && Part(x, j.members[i].value))
  }

  lemma {:induction false} AllJsonIff(j: Json)
    ensures AllJson(j) <==> forall x :: Part(x, j) ==> !x.Foreign?
    decreases j
  {
    match j
    case Foreign(_) => assert Part(j, j);
    case Arr(items) =>
      forall i | 0 <= i < |items| ensures AllJson(items[i]) <==> forall x :: Part(x, items[i]) ==> !x.Foreign? { AllJsonIff(items[i]); }
    case Obj(members) =>
      forall i | 0 <= i < |members|
        ensures AllJson(members[i].value) <==> forall x :: Part(x, members[i].value) ==> !x.Foreign?
      {
        AllJsonIff(members[i].value);
      }
    case _ =>
  }

  // UTF-8 (section 3 of RFC 3629), a lone surrogate as U+FFFD.
  function Utf8(t: Text): seq<int> {
    if t == [] then []
    else if HighSurrogate(t[0]) && |t| > 1 && LowSurrogate(t[1])
    then
      var high: int, low: int := t[0], t[1];
      Utf8Char(0x10000 + (high - 0xD800) * 0x400 + (low - 0xDC00)) + Utf8(t[2..])
    else Utf8Char(if HighSurrogate(t[0]) || LowSurrogate(t[0]) then 0xFFFD else t[0]) + Utf8(t[1..])
  }

  function Utf8Char(c: int): (bytes: seq<int>)
    requires 0 <= c < 0x110000
    ensures forall i :: 0 <= i < |bytes| ==> 0 <= bytes[i] < 0x100
  {
    if c < 0x80 then [c]
    else if c < 0x800 then [0xC0 + c / 0x40, 0x80 + c % 0x40]
    else if c < 0x10000 then [0xE0 + c / 0x1000, 0x80 + c / 0x40 % 0x40, 0x80 + c % 0x40]
    else [0xF0 + c / 0x40000, 0x80 + c / 0x1000 % 0x40, 0x80 + c / 0x40 % 0x40, 0x80 + c % 0x40]
  }

  lemma {:induction false} ByteLengthIsUtf8(t: Text)
    ensures ByteLength(t) == |Utf8(t)|
  {
    if t != [] {
      if HighSurrogate(t[0]) && |t| > 1 && LowSurrogate(t[1]) { ByteLengthIsUtf8(t[2..]); } else { ByteLengthIsUtf8(t[1..]); }
    }
  }

  // A value is turned away exactly when some part of it is not JSON, or when the UTF-8 bytes of
  // its canonical text are more than the limit.
  lemma AcceptedIff(j: Json, maxBytes: nat)
    ensures CanonicalJson(j, maxBytes) == Rejected(NotJson) <==> exists x :: Part(x, j) && x.Foreign?
    ensures CanonicalJson(j, maxBytes) == Rejected(TooLong) <==>
              (forall x :: Part(x, j) ==> !x.Foreign?) && |Utf8(Printed(Canonical(j)))| > maxBytes
    ensures CanonicalJson(j, maxBytes).Text? ==> CanonicalJson(j, maxBytes).text == Printed(Canonical(j))
  {
    AllJsonIff(j);
    ByteLengthIsUtf8(Printed(Canonical(j)));
  }

  lemma {:induction false} ProtoDoesNotMatter(a: Json, b: Json)
    requires NoProto(a) && NoProto(b)
    ensures Equal(a, b, {PROTO}) <==> Equal(a, b, {})
    decreases a
  {
    if a.Arr? && b.Arr? {
      forall i | 0 <= i < |a.items| && i < |b.items|
        ensures Equal(a.items[i], b.items[i], {PROTO}) <==> Equal(a.items[i], b.items[i], {})
      {
        ProtoDoesNotMatter(a.items[i], b.items[i]);
      }
    } else if a.Obj? && b.Obj? {
      forall i, k | 0 <= i < |a.members| && 0 <= k < |b.members|
        ensures Equal(a.members[i].value, b.members[k].value, {PROTO}) <==> Equal(a.members[i].value, b.members[k].value, {})
      {
        ProtoDoesNotMatter(a.members[i].value, b.members[k].value);
      }
    }
  }

  // For values without such a member, fingerprints are equal exactly when the values are.
  lemma FingerprintsAreExact(a: Json, b: Json, maxBytes: nat)
    requires WellFormed(a) && WellFormed(b) && NoProto(a) && NoProto(b)
    requires CanonicalJson(a, maxBytes).Text? && CanonicalJson(b, maxBytes).Text?
    ensures CanonicalJson(a, maxBytes) == CanonicalJson(b, maxBytes) <==> Equal(a, b, {})
  {
    FingerprintsDecideEquality(a, b, maxBytes);
    ProtoDoesNotMatter(a, b);
  }

  lemma {:induction false} EqualKeepsNoProto(a: Json, b: Json)
    requires Equal(a, b, {}) && NoProto(b)
    ensures NoProto(a)
    decreases a
  {
    if a.Arr? {
      forall i | 0 <= i < |a.items| ensures NoProto(a.items[i]) { EqualKeepsNoProto(a.items[i], b.items[i]); }
    } else if a.Obj? {
      forall i | 0 <= i < |a.members| ensures a.members[i].key != PROTO && NoProto(a.members[i].value) {
        assert HasKey(b.members, a.members[i].key);
        var k :| 0 <= k < |b.members| && b.members[k].key == a.members[i].key;
        EqualKeepsNoProto(a.members[i].value, b.members[k].value);
      }
    }
  }

  // A value always shares its fingerprint with its canonical form, and the two are equal
  // values exactly when no member is named __proto__; so with one, two different values collide.
  lemma CollisionIffProto(j: Json, maxBytes: nat)
    requires WellFormed(j) && AllJson(j)
    ensures CanonicalJson(j, maxBytes) == CanonicalJson(Canonical(j), maxBytes)
    ensures Equal(j, Canonical(j), {}) <==> NoProto(j)
  {
    CanonicalIsIdempotent(j);
    CanonicalIsPlain(j);
    PlainIsJson(Canonical(j));
    if NoProto(j) {
      CanonicalDecidesEquality(j, Canonical(j));
      ProtoDoesNotMatter(j, Canonical(j));
    }
    if Equal(j, Canonical(j), {}) { EqualKeepsNoProto(j, Canonical(j)); }
  }

  lemma {:induction false} PlainIsJson(j: Json)
    requires Plain(j)
    ensures AllJson(j)
    decreases j
  {
    match j
    case Arr(items) => forall i | 0 <= i < |items| ensures AllJson(items[i]) { PlainIsJson(items[i]); }
    case Obj(members) =>
      forall i | 0 <= i < |members| ensures AllJson(members[i].value) { PlainIsJson(members[i].value); }
    case _ =>
  }

  // The empty object and one with a single member named __proto__.
  lemma ProtoCollides(maxBytes: nat)
    ensures CanonicalJson(Obj([]), maxBytes) == CanonicalJson(Obj([Member(PROTO, Bool(true))]), maxBytes)
    ensures !Equal(Obj([]), Obj([Member(PROTO, Bool(true))]), {})
  {
    var a, b := Obj([]), Obj([Member(PROTO, Bool(true))]);
    CanonicalObject(a);
    CanonicalObject(b);
    assert Kept(a) == [];
    assert Mapped(b)[0].key == PROTO;
    assert Mapped(b)[1..] == [];
    assert Kept(b) == [];
    assert AllJson(b.members[0].value);
    assert AllJson(a) && AllJson(b);
    assert Canonical(a) == Canonical(b);
    assert !HasKey(a.members, b.members[0].key);
  }
}

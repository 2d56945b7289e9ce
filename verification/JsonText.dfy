/**
 JSON values and the text JSON.stringify prints for them, over UTF-16 code units; and that
 this text is unambiguous (sections 4 and 7 of RFC 8259).
 */
module JsonText {
  type Unit = u: int | 0 <= u < 0x10000
  type Text = seq<Unit>

  const QUOTE: Unit := 0x22
  const COMMA: Unit := 0x2C
  const COLON: Unit := 0x3A
  const OPEN_BRACKET: Unit := 0x5B
  const BACKSLASH: Unit := 0x5C
  const CLOSE_BRACKET: Unit := 0x5D
  const OPEN_BRACE: Unit := 0x7B
  const CLOSE_BRACE: Unit := 0x7D

  const NULL_TEXT: Text := [0x6E, 0x75, 0x6C, 0x6C]
  const TRUE_TEXT: Text := [0x74, 0x72, 0x75, 0x65]
  const FALSE_TEXT: Text := [0x66, 0x61, 0x6C, 0x73, 0x65]
  const ZERO_TEXT: Text := [0x30]

  // A finite number other than -0 is known by its decimal text. Foreign is anything that is
  // not JSON: undefined, a function, a symbol, a bigint, NaN, an infinity, a class instance.
  datatype Json =
    | Null
    | Bool(value: bool)
    | Num(token: Text)
    | NegativeZero
    | Str(text: Text)
    | Arr(items: seq<Json>)
    | Obj(members: seq<Member>)
    | Foreign(kind: int)

  datatype Member = Member(key: Text, value: Json)

  // + - . 0-9 e
  predicate NumberUnit(u: Unit) {
    u == 0x2B || u == 0x2D || u == 0x2E || 0x30 <= u <= 0x39 || u == 0x65
  }

  predicate NumberToken(t: Text) {
    t != [] && forall i :: 0 <= i < |t| ==> NumberUnit(t[i])
  }

  predicate DistinctKeys(members: seq<Member>) {
    forall i, j :: 0 <= i < j < |members| ==> members[i].key != members[j].key
  }

  // What every JavaScript value of this shape satisfies: number text is number text, and the
  // keys of an object are distinct.
  predicate WellFormed(j: Json) {
    match j
    case Num(token) => NumberToken(token)
    case Arr(items) => forall i :: 0 <= i < |items| ==> WellFormed(items[i])
    case Obj(members) => DistinctKeys(members) && forall i :: 0 <= i < |members| ==> WellFormed(members[i].value)
    case _ => true
  }

  // No part is outside JSON.
  predicate AllJson(j: Json) {
    match j
    case Foreign(_) => false
    case Arr(items) => forall i :: 0 <= i < |items| ==> AllJson(items[i])
    case Obj(members) => forall i :: 0 <= i < |members| ==> AllJson(members[i].value)
    case _ => true
  }

  // ---- strings -------------------------------------------------------------------------

  predicate HighSurrogate(u: Unit) {
    0xD800 <= u < 0xDC00
  }

  predicate LowSurrogate(u: Unit) {
    0xDC00 <= u < 0xE000
  }

  function HexDigit(d: int): Unit
    requires 0 <= d < 16
  {
    if d < 10 then 0x30 + d else 0x57 + d
  }

  function Hex(u: Unit): Text {
    [BACKSLASH, 0x75, HexDigit(u / 0x1000), HexDigit(u / 0x100 % 0x10), HexDigit(u / 0x10 % 0x10), HexDigit(u % 0x10)]
  }

  // How a unit that is not half of a surrogate pair is printed.
  function EscapeUnit(u: Unit): Text {
    if u == QUOTE || u == BACKSLASH then [BACKSLASH, u]
    else if u == 8 then [BACKSLASH, 0x62]
    else if u == 9 then [BACKSLASH, 0x74]
    else if u == 10 then [BACKSLASH, 0x6E]
    else if u == 12 then [BACKSLASH, 0x66]
    else if u == 13 then [BACKSLASH, 0x72]
    else if u < 0x20 || HighSurrogate(u) || LowSurrogate(u) then Hex(u)
    else [u]
  }

  // second says that the first unit completes a surrogate pair.
  function Escaped(s: Text, second: bool): Text {
    if s == [] then []
    else if second && LowSurrogate(s[0]) then [s[0]] + Escaped(s[1..], false)
    else if HighSurrogate(s[0]) && |s| > 1 && LowSurrogate(s[1]) then [s[0]] + Escaped(s[1..], true)
    else EscapeUnit(s[0]) + Escaped(s[1..], false)
  }

  function Quoted(s: Text): Text {
    [QUOTE] + Escaped(s, false) + [QUOTE]
  }

  // The ways a unit may appear inside a printed string.
  predicate CodeOf(c: Text, u: Unit) {
    c == EscapeUnit(u) || (c == [u] && (HighSurrogate(u) || LowSurrogate(u)))
  }

  lemma HexReads(u: Unit, v: Unit)
    requires Hex(u) == Hex(v)
    ensures u == v
  {
    assert Hex(u)[2] == Hex(v)[2] && Hex(u)[3] == Hex(v)[3] && Hex(u)[4] == Hex(v)[4] && Hex(u)[5] == Hex(v)[5];
    assert u / 0x1000 == v / 0x1000 && u / 0x100 % 0x10 == v / 0x100 % 0x10;
    assert u / 0x10 % 0x10 == v / 0x10 % 0x10 && u % 0x10 == v % 0x10;
    HexParts(u);
    HexParts(v);
  }

  lemma HexParts(u: Unit)
    ensures u == 0x1000 * (u / 0x1000) + 0x100 * (u / 0x100 % 0x10) + 0x10 * (u / 0x10 % 0x10) + u % 0x10
  {
    assert u == 0x10 * (u / 0x10) + u % 0x10;
    assert u / 0x10 == 0x10 * (u / 0x100) + u / 0x10 % 0x10;
    assert u / 0x100 == 0x10 * (u / 0x1000) + u / 0x100 % 0x10;
  }

  lemma CodesAreUnambiguous(c: Text, u: Unit, x: Text, d: Text, v: Unit, y: Text)
    requires CodeOf(c, u) && CodeOf(d, v) && c + x == d + y
    ensures u == v && x == y && c == d
  {
    var t := c + x;
    assert t[0] == c[0] == d[0];
    if c[0] == BACKSLASH {
      assert t[1] == c[1] == d[1];
      if |c| == 6 && |d| == 6 {
        assert c == t[..6] == d;
        HexReads(u, v);
      }
    }
    assert |c| == |d|;
    assert c == t[..|c|] && x == t[|c|..] && d == t[..|d|] && y == t[|d|..];
  }

  // The first unit's code, and the flag for the rest.
  lemma EscapedHead(s: Text, second: bool) returns (c: Text, flag: bool)
    requires s != []
    ensures CodeOf(c, s[0]) && c != [] && c[0] != QUOTE
    ensures Escaped(s, second) == c + Escaped(s[1..], flag)
  {
    if second && LowSurrogate(s[0]) { c, flag := [s[0]], false; }
    else if HighSurrogate(s[0]) && |s| > 1 && LowSurrogate(s[1]) { c, flag := [s[0]], true; }
    else { c, flag := EscapeUnit(s[0]), false; }
  }

  lemma SamePrefix(p: Text, x: Text, y: Text)
    requires p + x == p + y
    ensures x == y
  {
    assert x == (p + x)[|p|..] && y == (p + y)[|p|..];
  }

  // Whether a string has ended shows in its first unit.
  lemma EscapedFirst(s: Text, second: bool, x: Text)
    ensures var t := Escaped(s, second) + ([QUOTE] + x); t != [] && (t[0] == QUOTE <==> s == [])
  {
    if s != [] { var c, f := EscapedHead(s, second); }
  }

  lemma EscapedSplit(s: Text, second: bool, z: Text) returns (c: Text, flag: bool)
    requires s != []
    ensures CodeOf(c, s[0]) && Escaped(s, second) + z == c + (Escaped(s[1..], flag) + z)
  {
    c, flag := EscapedHead(s, second);
  }

  lemma EscapedEmpty(second: bool, z: Text)
    ensures Escaped([], second) + z == z
  {
  }

  lemma {:induction false} EscapedIsUnambiguous(a: Text, p: bool, x: Text, b: Text, q: bool, y: Text)
    requires Escaped(a, p) + ([QUOTE] + x) == Escaped(b, q) + ([QUOTE] + y)
    ensures a == b && x == y
    decreases |a|
  {
    hide *;
    EscapedFirst(a, p, x);
    EscapedFirst(b, q, y);
    if a != [] && b != [] {
      var c, f := EscapedSplit(a, p, [QUOTE] + x);
      var d, g := EscapedSplit(b, q, [QUOTE] + y);
      CodesAreUnambiguous(c, a[0], Escaped(a[1..], f) + ([QUOTE] + x), d, b[0], Escaped(b[1..], g) + ([QUOTE] + y));
      EscapedIsUnambiguous(a[1..], f, x, b[1..], g, y);
      assert a == [a[0]] + a[1..] && b == [b[0]] + b[1..];
    } else {
      EscapedEmpty(p, [QUOTE] + x);
      EscapedEmpty(q, [QUOTE] + y);
      SamePrefix([QUOTE], x, y);
    }
  }

  lemma QuotedIsUnambiguous(a: Text, x: Text, b: Text, y: Text)
    requires Quoted(a) + x == Quoted(b) + y
    ensures a == b && x == y
  {
    assert Quoted(a) + x == [QUOTE] + (Escaped(a, false) + ([QUOTE] + x));
    assert Quoted(b) + y == [QUOTE] + (Escaped(b, false) + ([QUOTE] + y));
    SamePrefix([QUOTE], Escaped(a, false) + ([QUOTE] + x), Escaped(b, false) + ([QUOTE] + y));
    EscapedIsUnambiguous(a, false, x, b, false, y);
  }

  // ---- values --------------------------------------------------------------------------

  function Printed(j: Json): Text
    decreases j, 1, 0
  {
    match j
    case Null => NULL_TEXT
    case Bool(value) => if value then TRUE_TEXT else FALSE_TEXT
    case Num(token) => token
    case NegativeZero => ZERO_TEXT
    case Str(text) => Quoted(text)
    case Arr(items) => [OPEN_BRACKET] + Items(j, 0)
    case Obj(members) => [OPEN_BRACE] + Members(j, 0)
    case Foreign(_) => NULL_TEXT
  }

  function Items(j: Json, i: nat): Text
    requires j.Arr? && i <= |j.items|
    decreases j, 0, |j.items| - i
  {
    if i == |j.items| then [CLOSE_BRACKET]
    else (if i > 0 then [COMMA] else []) + Printed(j.items[i]) + Items(j, i + 1)
  }

  function Members(j: Json, i: nat): Text
    requires j.Obj? && i <= |j.members|
    decreases j, 0, |j.members| - i
  {
    if i == |j.members| then [CLOSE_BRACE]
    else (if i > 0 then [COMMA] else []) + Quoted(j.members[i].key) + [COLON] + Printed(j.members[i].value) + Members(j, i + 1)
  }

  // What may follow a value: nothing, or a comma or closing bracket.
  predicate Ends(x: Text) {
    x == [] || x[0] == COMMA || x[0] == CLOSE_BRACKET || x[0] == CLOSE_BRACE
  }

  // The values whose text says what they are: -0 prints like 0, and nothing else is Foreign.
  predicate Plain(j: Json) {
    match j
    case NegativeZero => false
    case Foreign(_) => false
    case Arr(items) => forall i :: 0 <= i < |items| ==> Plain(items[i])
    case Obj(members) => forall i :: 0 <= i < |members| ==> Plain(members[i].value)
    case _ => true
  }

  lemma {:induction false} TokensAreUnambiguous(s: Text, x: Text, t: Text, y: Text)
    requires (forall i :: 0 <= i < |s| ==> NumberUnit(s[i])) && (forall i :: 0 <= i < |t| ==> NumberUnit(t[i]))
    requires Ends(x) && Ends(y) && s + x == t + y
    ensures s == t && x == y
  {
    assert s == [] ==> s + x == x;
    assert t == [] ==> t + y == y;
    assert s != [] ==> (s + x)[0] == s[0] && (s + x)[1..] == s[1..] + x;
    assert t != [] ==> (t + y)[0] == t[0] && (t + y)[1..] == t[1..] + y;
    if s != [] && t != [] {
      TokensAreUnambiguous(s[1..], x, t[1..], y);
      assert s == [s[0]] + s[1..] && t == [t[0]] + t[1..];
    }
  }

  // The kind of a value, and the kind that a unit announces.
  function Kind(j: Json): nat {
    match j
    case Null => 0
    case Bool(value) => if value then 1 else 2
    case Num(_) => 3
    case Str(_) => 4
    case Arr(_) => 5
    case Obj(_) => 6
    case _ => 7
  }

  function Announced(u: Unit): nat {
    if u == 0x6E then 0 else if u == 0x74 then 1 else if u == 0x66 then 2
    else if u == QUOTE then 4 else if u == OPEN_BRACKET then 5 else if u == OPEN_BRACE then 6
    else if NumberUnit(u) then 3 else 7
  }

  lemma FirstUnit(j: Json, x: Text)
    requires WellFormed(j) && Plain(j)
    ensures Printed(j) + x != [] && Announced((Printed(j) + x)[0]) == Kind(j) < 7
  {
  }

  lemma SameKind(a: Json, x: Text, b: Json, y: Text)
    requires WellFormed(a) && Plain(a) && WellFormed(b) && Plain(b)
    requires Printed(a) + x == Printed(b) + y
    ensures (a.Null? && b.Null?) || (a.Bool? && a == b) || (a.Num? && b.Num?) || (a.Str? && b.Str?)
         || (a.Arr? && b.Arr?) || (a.Obj? && b.Obj?)
  {
    hide *;
    FirstUnit(a, x);
    FirstUnit(b, y);
    KindsDiffer(a, b);
  }

  lemma KindsDiffer(a: Json, b: Json)
    requires Kind(a) == Kind(b) < 7
    ensures (a.Null? && b.Null?) || (a.Bool? && a == b) || (a.Num? && b.Num?) || (a.Str? && b.Str?)
         || (a.Arr? && b.Arr?) || (a.Obj? && b.Obj?)
  {
  }

  lemma ItemsFirst(j: Json, i: nat, x: Text)
    requires j.Arr? && WellFormed(j) && Plain(j) && i <= |j.items|
    ensures var t := Items(j, i) + x;
            t != [] && (t[0] == CLOSE_BRACKET <==> i == |j.items|) && (i > 0 ==> Ends(t))
  {
    if i < |j.items| { FirstUnit(j.items[i], []); }
  }

  lemma ItemsSplit(j: Json, i: nat, x: Text)
    requires j.Arr? && i < |j.items|
    ensures Items(j, i) + x == (if i > 0 then [COMMA] else []) + (Printed(j.items[i]) + (Items(j, i + 1) + x))
  {
  }

  lemma MembersFirst(j: Json, i: nat, x: Text)
    requires j.Obj? && i <= |j.members|
    ensures var t := Members(j, i) + x;
            t != [] && (t[0] == CLOSE_BRACE <==> i == |j.members|) && (i > 0 ==> Ends(t))
  {
  }

  lemma MembersSplit(j: Json, i: nat, x: Text)
    requires j.Obj? && i < |j.members|
    ensures Members(j, i) + x
         == (if i > 0 then [COMMA] else [])
          + (Quoted(j.members[i].key) + ([COLON] + (Printed(j.members[i].value) + (Members(j, i + 1) + x))))
  {
    var sep: Text := if i > 0 then [COMMA] else [];
    var q, v, m := Quoted(j.members[i].key), Printed(j.members[i].value), Members(j, i + 1);
    assert Members(j, i) == sep + q + [COLON] + v + m;
    Regroup(sep, q, [COLON], v, m, x);
  }

  lemma Regroup(a: Text, b: Text, c: Text, d: Text, e: Text, x: Text)
    ensures a + b + c + d + e + x == a + (b + (c + (d + (e + x))))
  {
  }

  // What stands inside the brackets ends with the closing one, without condition on what follows.
  lemma EmptyEnds(j: Json, x: Text)
    ensures j.Arr? ==> Items(j, |j.items|) + x == [CLOSE_BRACKET] + x
    ensures j.Obj? ==> Members(j, |j.members|) + x == [CLOSE_BRACE] + x
  {
  }

  lemma Parts(j: Json)
    ensures WellFormed(j) && Plain(j) && j.Num? ==> NumberToken(j.token)
    ensures WellFormed(j) && Plain(j) && j.Arr? ==>
              forall i :: 0 <= i < |j.items| ==> WellFormed(j.items[i]) && Plain(j.items[i])
    ensures WellFormed(j) && Plain(j) && j.Obj? ==>
              forall i :: 0 <= i < |j.members| ==> WellFormed(j.members[i].value) && Plain(j.members[i].value)
  {
  }

  lemma Opened(j: Json, x: Text)
    ensures j.Num? ==> Printed(j) == j.token
    ensures j.Str? ==> Printed(j) == Quoted(j.text)
    ensures j.Arr? ==> Printed(j) + x == [OPEN_BRACKET] + (Items(j, 0) + x)
    ensures j.Obj? ==> Printed(j) + x == [OPEN_BRACE] + (Members(j, 0) + x)
  {
  }

  lemma TokenUnits(t: Text)
    requires NumberToken(t)
    ensures forall i :: 0 <= i < |t| ==> NumberUnit(t[i])
  {
  }

  // Two values whose texts, each followed by something that may follow a value, read the same
  // are the same value, and what follows is the same.
  lemma {:induction false} PrintedIsUnambiguous(a: Json, x: Text, b: Json, y: Text)
    requires WellFormed(a) && Plain(a) && WellFormed(b) && Plain(b)
    requires Ends(x) && Ends(y) && Printed(a) + x == Printed(b) + y
    ensures a == b && x == y
    decreases a, 1, 0
  {
    hide *;
    SameKind(a, x, b, y);
    Parts(a);
    Parts(b);
    Opened(a, x);
    Opened(b, y);
    match a
    case Num(token) =>
      TokenUnits(token);
      TokenUnits(b.token);
      TokensAreUnambiguous(token, x, b.token, y);
    case Str(text) => QuotedIsUnambiguous(text, x, b.text, y);
    case Arr(items) =>
      SamePrefix([OPEN_BRACKET], Items(a, 0) + x, Items(b, 0) + y);
      ItemsAreUnambiguous(a, x, b, y, 0);
      assert a.items == a.items[0..] && b.items == b.items[0..];
    case Obj(members) =>
      SamePrefix([OPEN_BRACE], Members(a, 0) + x, Members(b, 0) + y);
      MembersAreUnambiguous(a, x, b, y, 0);
      assert a.members == a.members[0..] && b.members == b.members[0..];
    case _ => SamePrefix(Printed(a), x, y);
  }

  lemma {:induction false} ItemsAreUnambiguous(a: Json, x: Text, b: Json, y: Text, i: nat)
    requires a.Arr? && b.Arr? && WellFormed(a) && Plain(a) && WellFormed(b) && Plain(b)
    requires i <= |a.items| && i <= |b.items|
    requires Items(a, i) + x == Items(b, i) + y
    ensures a.items[i..] == b.items[i..] && x == y
    decreases a, 0, |a.items| - i
  {
    hide *;
    ItemsFirst(a, i, x);
    ItemsFirst(b, i, y);
    if i < |a.items| {
      Parts(a);
      Parts(b);
      ItemsSplit(a, i, x);
      ItemsSplit(b, i, y);
      ItemsFirst(a, i + 1, x);
      ItemsFirst(b, i + 1, y);
      SamePrefix(if i > 0 then [COMMA] else [], Printed(a.items[i]) + (Items(a, i + 1) + x), Printed(b.items[i]) + (Items(b, i + 1) + y));
      PrintedIsUnambiguous(a.items[i], Items(a, i + 1) + x, b.items[i], Items(b, i + 1) + y);
      ItemsAreUnambiguous(a, x, b, y, i + 1);
      assert a.items[i..] == [a.items[i]] + a.items[i + 1..] && b.items[i..] == [b.items[i]] + b.items[i + 1..];
    } else {
      EmptyEnds(a, x);
      EmptyEnds(b, y);
      SamePrefix([CLOSE_BRACKET], x, y);
    }
  }

  lemma {:induction false} MembersAreUnambiguous(a: Json, x: Text, b: Json, y: Text, i: nat)
    requires a.Obj? && b.Obj? && WellFormed(a) && Plain(a) && WellFormed(b) && Plain(b)
    requires i <= |a.members| && i <= |b.members|
    requires Members(a, i) + x == Members(b, i) + y
    ensures a.members[i..] == b.members[i..] && x == y
    decreases a, 0, |a.members| - i
  {
    hide *;
    MembersFirst(a, i, x);
    MembersFirst(b, i, y);
    if i < |a.members| {
      Parts(a);
      Parts(b);
      var ma, mb := a.members[i], b.members[i];
      var xa, yb := Members(a, i + 1) + x, Members(b, i + 1) + y;
      MembersSplit(a, i, x);
      MembersSplit(b, i, y);
      MembersFirst(a, i + 1, x);
      MembersFirst(b, i + 1, y);
      var ra, rb := [COLON] + (Printed(ma.value) + xa), [COLON] + (Printed(mb.value) + yb);
      SamePrefix(if i > 0 then [COMMA] else [], Quoted(ma.key) + ra, Quoted(mb.key) + rb);
      QuotedIsUnambiguous(ma.key, ra, mb.key, rb);
      SamePrefix([COLON], Printed(ma.value) + xa, Printed(mb.value) + yb);
      PrintedIsUnambiguous(ma.value, xa, mb.value, yb);
      MembersAreUnambiguous(a, x, b, y, i + 1);
      assert a.members[i..] == [ma] + a.members[i + 1..] && b.members[i..] == [mb] + b.members[i + 1..];
    } else {
      EmptyEnds(a, x);
      EmptyEnds(b, y);
      SamePrefix([CLOSE_BRACE], x, y);
    }
  }
}

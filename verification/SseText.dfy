/** The string operations that printing and parsing an event stream rest on. */
module SseText {
  import opened Base

  // ---- line endings: replaceAll("\r\n", "\n") ------------------------------------------

  function Normalize(s: string): string {
    if |s| < 2 then s
    else if s[0] == '\r' && s[1] == '\n' then "\n" + Normalize(s[2..])
    else [s[0]] + Normalize(s[1..])
  }

  predicate NoCR(s: string) {
    '\r' !in s
  }

  // No carriage return stands directly before a CR LF.
  predicate NoCRCRLF(s: string) {
    forall i :: 0 <= i < |s| - 2 ==> !(s[i] == '\r' && s[i + 1] == '\r' && s[i + 2] == '\n')
  }

  lemma {:induction false} NormalizeNoCR(s: string)
    requires NoCR(s)
    ensures Normalize(s) == s
  {
    if |s| >= 2 { NormalizeNoCR(s[1..]); }
  }

  lemma NormalizeStep(c: char, s: string)
    ensures !(c == '\r' && s != "" && s[0] == '\n') ==> Normalize([c] + s) == [c] + Normalize(s)
    ensures c == '\r' && s != "" && s[0] == '\n' ==> Normalize([c] + s) == ['\n'] + Normalize(s[1..])
  {
    assert ([c] + s)[1..] == s;
    if s != "" { assert ([c] + s)[2..] == s[1..]; }
  }

  predicate NoCRLF(s: string) {
    forall i :: 0 <= i < |s| - 1 ==> !(s[i] == '\r' && s[i + 1] == '\n')
  }

  predicate EndsCR(s: string) {
    s != "" && s[|s| - 1] == '\r'
  }

  predicate StartsLF(s: string) {
    s != "" && s[0] == '\n'
  }

  // A normalized text n with more text behind it: only a CR LF across the seam is left to replace.
  function Glue(n: string, v: string): string {
    if EndsCR(n) && StartsLF(v) then n[..|n| - 1] + "\n" + Normalize(v[1..]) else n + Normalize(v)
  }

  lemma NormalizePair(s: string)
    ensures Normalize("\r\n" + s) == "\n" + Normalize(s)
  {
    assert ("\r\n" + s)[2..] == s;
  }

  // Line ends are replaced from left to right.
  lemma {:induction false} NormalizeAppend(u: string, v: string)
    ensures Normalize(u + v) == Glue(Normalize(u), v)
    ensures EndsCR(Normalize(u)) <==> EndsCR(u)
    ensures Normalize(u) == "" <==> u == ""
    decreases |u|
  {
    hide *;
    if u == "" {
      NormalizeShort(u);
      GlueNothing(v);
      assert u + v == v;
    } else if |u| == 1 {
      NormalizeShort(u);
      GlueOne(u[0], v);
      assert u == [u[0]];
    } else if u[0] == '\r' && u[1] == '\n' {
      var w := u[2..];
      NormalizeAppend(w, v);
      NormalizePair(w);
      NormalizePair(w + v);
      assert u == "\r\n" + w && u + v == "\r\n" + (w + v);
      GlueBehind("\n", Normalize(w), v);
      EndsBehind("\n", Normalize(w));
      EndsBehind("\r\n", w);
    } else {
      var c, w := u[0], u[1..];
      NormalizeAppend(w, v);
      assert (w + v)[0] == w[0] == u[1];
      NormalizeStep(c, w);
      NormalizeStep(c, w + v);
      assert u == [c] + w && u + v == [c] + (w + v);
      GlueBehind([c], Normalize(w), v);
      EndsBehind([c], Normalize(w));
      EndsBehind([c], w);
    }
  }

  lemma GlueNothing(v: string)
    ensures Glue("", v) == Normalize(v) && !EndsCR("")
  {
    assert "" + Normalize(v) == Normalize(v);
  }

  lemma GlueOne(c: char, v: string)
    ensures Glue([c], v) == Normalize([c] + v)
  {
    NormalizeStep(c, v);
    assert [c][..0] == "";
  }

  lemma EndsBehind(a: string, n: string)
    requires a != ""
    ensures n != "" ==> (EndsCR(a + n) <==> EndsCR(n))
    ensures n == "" ==> a + n == a && (a[|a| - 1] == '\n' ==> !EndsCR(a + n))
  {
  }

  lemma NormalizeShort(u: string)
    requires |u| < 2
    ensures Normalize(u) == u
  {
  }

  lemma GlueBehind(a: string, n: string, v: string)
    requires n != "" || a == "\n"
    ensures Glue(a + n, v) == a + Glue(n, v)
  {
    hide Normalize;
    var s := a + n;
    if n != "" {
      assert s[|s| - 1] == n[|n| - 1];
      assert s[..|s| - 1] == a + n[..|n| - 1];
      if StartsLF(v) {
        var x := Normalize(v[1..]);
        assert a + n[..|n| - 1] + "\n" + x == a + (n[..|n| - 1] + "\n" + x);
      }
    }
    assert a + n + Normalize(v) == a + (n + Normalize(v));
  }

  // One more character.
  lemma NormalizeLast(u: string, c: char)
    ensures EndsCR(u) && c == '\n' ==>
              Normalize(u) != "" && Normalize(u + [c]) == Normalize(u)[..|Normalize(u)| - 1] + "\n"
    ensures !(EndsCR(u) && c == '\n') ==> Normalize(u + [c]) == Normalize(u) + [c]
    ensures EndsCR(Normalize(u)) <==> EndsCR(u)
  {
    NormalizeAppend(u, [c]);
    NormalizeShort([c]);
    assert [c][1..] == "";
  }

  // A CR LF is left exactly where a CR stood before one.
  lemma {:induction false} CleanIff(u: string)
    ensures NoCRLF(Normalize(u)) <==> NoCRCRLF(u)
    decreases |u|
  {
    hide *;
    if u == "" {
      EmptyIsClean();
    } else {
      var w, c := u[..|u| - 1], u[|u| - 1];
      assert u == w + [c];
      CleanIff(w);
      NormalizeLast(w, c);
      var n := Normalize(w);
      OneMoreRaw(w, c);
      if EndsCR(w) && c == '\n' {
        EndsIs(w);
        var x := w[..|w| - 1];
        assert w == x + "\r";
        NormalizeLast(x, '\r');
        var m := Normalize(x);
        assert n == m + "\r" && n[..|n| - 1] == m;
        assert "\n" == ['\n'] && "\r" == ['\r'];
        OneMoreClean(m, '\r');
        OneMoreClean(m, '\n');
      } else {
        OneMoreClean(n, c);
      }
    }
  }

  lemma EmptyIsClean()
    ensures NoCRLF(Normalize("")) && NoCRCRLF("")
  {
  }

  lemma EndsIs(w: string)
    requires EndsCR(w)
    ensures w != "" && w[|w| - 1] == '\r'
  {
  }

  lemma OneMoreClean(n: string, c: char)
    ensures NoCRLF(n + [c]) <==> NoCRLF(n) && !(EndsCR(n) && c == '\n')
  {
    var s := n + [c];
    if EndsCR(n) && c == '\n' { assert s[|n| - 1] == '\r' && s[|n| - 1 + 1] == '\n'; }
    if NoCRLF(s) {
      forall i | 0 <= i < |n| - 1 ensures !(n[i] == '\r' && n[i + 1] == '\n') { assert s[i] == n[i] && s[i + 1] == n[i + 1]; }
    }
  }

  lemma OneMoreRaw(w: string, c: char)
    ensures NoCRCRLF(w + [c]) <==> NoCRCRLF(w) && !(EndsCR(w) && EndsCR(w[..|w| - 1]) && c == '\n')
  {
    var s := w + [c];
    if NoCRCRLF(s) {
      forall i | 0 <= i < |w| - 2 ensures !(w[i] == '\r' && w[i + 1] == '\r' && w[i + 2] == '\n') {
        assert s[i] == w[i] && s[i + 1] == w[i + 1] && s[i + 2] == w[i + 2];
      }
    }
    if EndsCR(w) && EndsCR(w[..|w| - 1]) && c == '\n' {
      assert s[|w| - 2] == '\r' && s[|w| - 2 + 1] == '\r' && s[|w| - 2 + 2] == '\n';
    }
  }

  // Normalizing leaves a text alone exactly when it holds no CR LF, and shortens it otherwise.
  lemma {:induction false} NormalizeShortens(s: string)
    ensures |Normalize(s)| <= |s|
    ensures Normalize(s) == s <==> NoCRLF(s)
    ensures |Normalize(s)| == |s| ==> Normalize(s) == s
  {
    hide *;
    if s == "" {
      NormalizeShort(s);
      EmptyIsClean();
    } else {
      var w, c := s[..|s| - 1], s[|s| - 1];
      assert s == w + [c];
      NormalizeShortens(w);
      NormalizeLast(w, c);
      OneMoreClean(w, c);
    }
  }

  // Two glued texts that end alike are equal only if they are as long.
  lemma GlueTells(m: string, n: string, v: string)
    requires EndsCR(m) <==> EndsCR(n)
    ensures |m| != |n| ==> Glue(m, v) != Glue(n, v)
  {
  }

  /** Normalizing before more text arrives changes nothing in the end, exactly when no CR stood before a CR LF. */
  lemma NormalizeTwice(u: string, v: string)
    ensures Normalize(Normalize(u) + v) == Normalize(u + v) <==> NoCRCRLF(u)
  {
    var n := Normalize(u);
    NormalizeAppend(u, v);
    NormalizeAppend(n, v);
    NormalizeShortens(n);
    CleanIff(u);
    GlueTells(n, Normalize(n), v);
  }

  // ---- blocks: split("\n\n") -----------------------------------------------------------

  predicate BreakAt(s: string, i: nat) {
    i + 1 < |s| && s[i] == '\n' && s[i + 1] == '\n'
  }

  // The first empty line, or the length when there is none.
  function FirstBreak(s: string): (k: nat)
    ensures k <= |s|
    ensures k < |s| ==> BreakAt(s, k)
    ensures forall i: nat :: i < k ==> !BreakAt(s, i)
  {
    if |s| < 2 then |s|
    else if s[0] == '\n' && s[1] == '\n' then 0
    else
      assert forall i: nat :: i > 0 ==> (BreakAt(s, i) <==> BreakAt(s[1..], i - 1));
      1 + FirstBreak(s[1..])
  }

  function Blocks(s: string): seq<string>
    decreases |s|
  {
    var k := FirstBreak(s);
    if k == |s| then [] else [s[..k]] + Blocks(s[k + 2..])
  }

  function Rest(s: string): string
    decreases |s|
  {
    var k := FirstBreak(s);
    if k == |s| then s else Rest(s[k + 2..])
  }

  lemma FirstBreakIs(s: string, k: nat)
    requires BreakAt(s, k) && forall i: nat :: i < k ==> !BreakAt(s, i)
    ensures FirstBreak(s) == k
  {
  }

  lemma FirstBreakStays(u: string, v: string)
    requires FirstBreak(u) < |u|
    ensures FirstBreak(u + v) == FirstBreak(u)
  {
    var k := FirstBreak(u);
    assert BreakAt(u + v, k);
    forall i: nat | i < k ensures !BreakAt(u + v, i) { assert !BreakAt(u, i); }
  }

  // One block, its empty line, and what is split after it.
  lemma SplitIs(s: string)
    ensures FirstBreak(s) == |s| ==> Blocks(s) == [] && Rest(s) == s && Taken(s) == ""
    ensures var k := FirstBreak(s);
            k < |s| ==>
              && k + 2 <= |s| && s[k] == '\n' && s[k + 1] == '\n'
              && Blocks(s) == [s[..k]] + Blocks(s[k + 2..]) && Rest(s) == Rest(s[k + 2..])
              && Taken(s) == s[..k + 2] + Taken(s[k + 2..])
    ensures FirstBreak(s) <= |s|
  {
  }

  // More text only ever adds to what was split off before it.
  lemma {:induction false} SplitAppend(u: string, v: string)
    ensures Blocks(u + v) == Blocks(u) + Blocks(Rest(u) + v)
    ensures Rest(u + v) == Rest(Rest(u) + v)
    decreases |u|
  {
    hide *;
    var k := FirstBreak(u);
    SplitIs(u);
    if k < |u| {
      FirstBreakStays(u, v);
      SplitIs(u + v);
      SplitAppend(u[k + 2..], v);
      assert (u + v)[..k] == u[..k];
      assert (u + v)[k + 2..] == u[k + 2..] + v;
    }
  }

  // What was split off, with its empty lines.
  function Taken(s: string): string
    decreases |s|
  {
    var k := FirstBreak(s);
    if k == |s| then "" else s[..k + 2] + Taken(s[k + 2..])
  }

  lemma {:induction false} TakenAndRest(s: string)
    ensures s == Taken(s) + Rest(s)
    ensures Taken(s) == "" || (|Taken(s)| >= 2 && Taken(s)[|Taken(s)| - 2..] == "\n\n")
    decreases |s|
  {
    hide *;
    var k := FirstBreak(s);
    SplitIs(s);
    if k < |s| {
      var head, t := s[..k + 2], s[k + 2..];
      TakenAndRest(t);
      assert s == head + t;
      assert head[|head| - 2..] == "\n\n";
      EndsLast(head, Taken(t));
    }
  }

  lemma EndsLast(a: string, b: string)
    requires |a| >= 2 && a[|a| - 2..] == "\n\n"
    requires b == "" || (|b| >= 2 && b[|b| - 2..] == "\n\n")
    ensures (a + b)[|a + b| - 2..] == "\n\n"
  {
    if b == "" { assert a + b == a; } else { assert (a + b)[|a + b| - 2..] == b[|b| - 2..]; }
  }

  // A text is known by its blocks and its rest.
  lemma {:induction false} SplitTells(s: string, t: string)
    requires Blocks(s) == Blocks(t) && Rest(s) == Rest(t)
    ensures s == t
    decreases |s|
  {
    hide *;
    SplitIs(s);
    SplitIs(t);
    var j, k := FirstBreak(s), FirstBreak(t);
    if j < |s| && k < |t| {
      assert Blocks(s)[0] == s[..j] && Blocks(t)[0] == t[..k];
      assert Blocks(s)[1..] == Blocks(s[j + 2..]) && Blocks(t)[1..] == Blocks(t[k + 2..]);
      SplitTells(s[j + 2..], t[k + 2..]);
      assert s == s[..j] + "\n\n" + s[j + 2..];
      assert t == t[..k] + "\n\n" + t[k + 2..];
    }
  }

  lemma {:induction false} TakenAlone(s: string)
    ensures Blocks(Taken(s)) == Blocks(s) && Rest(Taken(s)) == ""
    decreases |s|
  {
    var k := FirstBreak(s);
    if k < |s| {
      var head, t := s[..k + 2], s[k + 2..];
      TakenAlone(t);
      assert BreakAt(head, k);
      forall i: nat | i < k ensures !BreakAt(head, i) { assert !BreakAt(s, i); }
      FirstBreakIs(head, k);
      FirstBreakStays(head, Taken(t));
      assert Taken(s)[..k] == s[..k];
      assert Taken(s)[k + 2..] == Taken(t);
    }
  }

  lemma TakenSplits(s: string, x: string)
    ensures Blocks(Taken(s) + x) == Blocks(s) + Blocks(x)
    ensures Rest(Taken(s) + x) == Rest(x)
  {
    TakenAlone(s);
    SplitAppend(Taken(s), x);
    assert "" + x == x;
  }

  // One block and its empty line in front of any text.
  lemma BlockFirst(body: string, x: string)
    requires forall i: nat :: !BreakAt(body, i)
    requires body != "" && body[|body| - 1] != '\n'
    ensures Blocks(body + "\n\n" + x) == [body] + Blocks(x)
    ensures Rest(body + "\n\n" + x) == Rest(x)
  {
    var s := body + "\n\n" + x;
    assert BreakAt(s, |body|);
    forall i: nat | i < |body| ensures !BreakAt(s, i) { assert !BreakAt(body, i); }
    FirstBreakIs(s, |body|);
    assert s[..|body|] == body;
    assert s[|body| + 2..] == x;
  }

  // A block that has not ended yet is all rest.
  lemma UnfinishedBlock(body: string, s: string)
    requires forall i: nat :: !BreakAt(body, i)
    requires body != "" && body[|body| - 1] != '\n'
    requires s <= body + "\n"
    ensures Blocks(s) == [] && Rest(s) == s
  {
    var k := FirstBreak(s);
    if k < |s| {
      assert k + 1 < |body| ==> BreakAt(body, k);
      assert false;
    }
  }

  // ---- lines: split("\n") --------------------------------------------------------------

  function Lines(s: string): (lines: seq<string>)
    ensures lines != []
  {
    if s == "" then [""]
    else if s[0] == '\n' then [""] + Lines(s[1..])
    else var rest := Lines(s[1..]); [[s[0]] + rest[0]] + rest[1..]
  }

  lemma {:induction false} LinesFirst(a: string, b: string)
    requires '\n' !in a
    ensures Lines(a + "\n" + b) == [a] + Lines(b)
  {
    if a == "" {
      assert (a + "\n" + b)[1..] == b;
    } else {
      assert (a + "\n" + b)[1..] == a[1..] + "\n" + b;
      LinesFirst(a[1..], b);
      assert [a[0]] + a[1..] == a;
    }
  }

  lemma {:induction false} OneLine(a: string)
    requires '\n' !in a
    ensures Lines(a) == [a]
  {
    if a != "" {
      OneLine(a[1..]);
      assert [a[0]] + a[1..] == a;
    }
  }

  // ---- trimming ------------------------------------------------------------------------

  // White space and line terminators, as String.prototype.trim removes them.
  predicate White(c: char) {
    var n := c as int;
    || 9 <= n <= 13 || n == 32 || n == 0xA0 || n == 0x1680 || 0x2000 <= n <= 0x200A
    || n == 0x2028 || n == 0x2029 || n == 0x202F || n == 0x205F || n == 0x3000 || n == 0xFEFF
  }

  function TrimStart(s: string): string {
    if s != "" && White(s[0]) then TrimStart(s[1..]) else s
  }

  function TrimEnd(s: string): string {
    if s != "" && White(s[|s| - 1]) then TrimEnd(s[..|s| - 1]) else s
  }

  function Trim(s: string): string {
    TrimEnd(TrimStart(s))
  }

  predicate IsTrimmed(s: string) {
    s != "" ==> !White(s[0]) && !White(s[|s| - 1])
  }

  lemma TrimAfterSpace(s: string)
    requires IsTrimmed(s)
    ensures Trim(" " + s) == s && TrimStart(" " + s) == s
  {
    assert (" " + s)[1..] == s;
    assert (" " + s)[0] == ' ' && White(' ');
    assert TrimStart(" " + s) == TrimStart(s) == s;
  }

  // ---- decimal numerals ----------------------------------------------------------------

  function Digit(d: nat): char
    requires d < 10
  {
    ('0' as int + d) as char
  }

  function Decimal(n: nat): string {
    if n < 10 then [Digit(n)] else Decimal(n / 10) + [Digit(n % 10)]
  }

  predicate IsDigit(c: char) {
    '0' <= c <= '9'
  }

  // ^(?:0|[1-9]\d*)$
  predicate IsNumeral(s: string) {
    && s != ""
    && (forall i :: 0 <= i < |s| ==> IsDigit(s[i]))
    && (|s| > 1 ==> s[0] != '0')
  }

  function Value(s: string): nat
    requires forall i :: 0 <= i < |s| ==> IsDigit(s[i])
  {
    if s == "" then 0
    else
      assert IsDigit(s[|s| - 1]);
      10 * Value(s[..|s| - 1]) + (s[|s| - 1] as int - '0' as int)
  }

  lemma {:induction false} DecimalReadsBack(n: nat)
    ensures IsNumeral(Decimal(n)) && Value(Decimal(n)) == n
    ensures n > 0 ==> Decimal(n)[0] != '0'
  {
    if n >= 10 {
      DecimalReadsBack(n / 10);
      assert Decimal(n)[..|Decimal(n)| - 1] == Decimal(n / 10);
    } else {
      assert Decimal(n)[..0] == "";
    }
  }

  lemma NumeralIsTrimmed(s: string)
    requires IsNumeral(s)
    ensures IsTrimmed(s) && '\n' !in s && '\r' !in s
  {
    assert IsDigit(s[0]) && IsDigit(s[|s| - 1]);
  }
}

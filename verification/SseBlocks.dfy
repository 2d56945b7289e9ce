/** What a block of a stream must say to give a frame, and which stream is given up. */
module SseBlocks {
  import opened Base
  import opened SseText
  import opened Sse
  import opened SseTheorems

  // ---- trimming and numerals -----------------------------------------------------------

  predicate AllWhite(s: string) {
    forall i :: 0 <= i < |s| ==> White(s[i])
  }

  lemma {:induction false} TrimStartIs(s: string) returns (a: string)
    ensures AllWhite(a) && s == a + TrimStart(s)
    ensures TrimStart(s) != "" ==> !White(TrimStart(s)[0])
  {
    a := "";
    if s != "" && White(s[0]) {
      var b := TrimStartIs(s[1..]);
      a := [s[0]] + b;
      assert s == [s[0]] + s[1..];
    }
  }

  lemma {:induction false} TrimEndIs(s: string) returns (b: string)
    ensures AllWhite(b) && s == TrimEnd(s) + b
    ensures TrimEnd(s) != "" ==> !White(TrimEnd(s)[|TrimEnd(s)| - 1])
  {
    b := "";
    if s != "" && White(s[|s| - 1]) {
      var n := |s| - 1;
      var c := TrimEndIs(s[..n]);
      b := c + [s[n]];
      assert s == s[..n] + [s[n]];
    }
  }

  // Trimming takes white space off both ends, and all of it.
  lemma TrimIs(s: string) returns (a: string, b: string)
    ensures AllWhite(a) && AllWhite(b) && s == a + Trim(s) + b
    ensures IsTrimmed(Trim(s))
  {
    a := TrimStartIs(s);
    b := TrimEndIs(TrimStart(s));
    if Trim(s) != "" { assert Trim(s)[0] == TrimStart(s)[0]; }
  }

  lemma ValueStep(s: string)
    requires s != "" && forall i :: 0 <= i < |s| ==> IsDigit(s[i])
    ensures Value(s) == 10 * Value(s[..|s| - 1]) + (s[|s| - 1] as int - '0' as int)
  {
  }

  lemma {:induction false} NumeralReadsBack(s: string)
    requires IsNumeral(s)
    ensures s == Decimal(Value(s)) && (|s| > 1 ==> Value(s) > 0)
  {
    hide Decimal, Value;
    var k := |s| - 1;
    var w, d := s[..k], s[k] as int - '0' as int;
    assert IsDigit(s[k]);
    assert s == w + [s[k]];
    ValueStep(s);
    if k == 0 {
      OneDigit(s);
    } else {
      assert w[0] == s[0] != '0' && IsDigit(s[0]);
      NumeralReadsBack(w);
      if k == 1 { FirstDigit(w); }
      DecimalStep(Value(w), d);
    }
  }

  lemma OneDigit(s: string)
    requires |s| == 1 && IsDigit(s[0])
    ensures s == Decimal(Value(s))
  {
    assert s[..0] == "";
    assert s == [Digit(s[0] as int - '0' as int)];
  }

  lemma DecimalStep(n: nat, d: nat)
    requires n > 0 && d < 10
    ensures Decimal(10 * n + d) == Decimal(n) + [Digit(d)]
  {
  }

  // The accepted numerals are the printed numbers, each its own.
  lemma NumeralIff(s: string)
    ensures IsNumeral(s) <==> exists n :: s == Decimal(n)
    ensures IsNumeral(s) ==> s == Decimal(Value(s)) && (|s| > 1 ==> Value(s) > 0)
  {
    hide Decimal, Value;
    if n :| s == Decimal(n) { DecimalReadsBack(n); }
    if IsNumeral(s) { NumeralReadsBack(s); }
  }

  lemma FirstDigit(w: string)
    requires |w| == 1 && IsDigit(w[0]) && w[0] != '0'
    ensures Value(w) > 0
  {
    assert w[..0] == "";
  }

  // ---- the fields of a block -----------------------------------------------------------

  // The line names the id n.
  predicate SaysId(line: string, n: nat) {
    "id:" <= line && Trim(line[3..]) == Decimal(n)
  }

  ghost predicate SaysAnyId(line: string) {
    exists n :: SaysId(line, n)
  }

  // The last line that names an id names n.
  ghost predicate LastId(lines: seq<string>, n: nat) {
    exists k :: 0 <= k < |lines| && SaysId(lines[k], n) && forall j :: k < j < |lines| ==> !SaysAnyId(lines[j])
  }

  // The last event line says event; without one it is "message".
  predicate LastEvent(lines: seq<string>, event: string) {
    || (event == "message" && forall j :: 0 <= j < |lines| ==> !("event:" <= lines[j]))
    || (exists k :: 0 <= k < |lines| && "event:" <= lines[k] && event == Trim(lines[k][6..])
          && forall j :: k < j < |lines| ==> !("event:" <= lines[j]))
  }

  // The texts of the data lines, in order.
  function DataOf(lines: seq<string>): seq<string> {
    if lines == [] then []
    else
      var n := |lines| - 1;
      DataOf(lines[..n]) + if "data:" <= lines[n] then [TrimStart(lines[n][5..])] else []
  }

  lemma PrefixesApart(line: string)
    ensures !("id:" <= line && "event:" <= line) && !("id:" <= line && "data:" <= line) && !("event:" <= line && "data:" <= line)
  {
    if "id:" <= line { assert line[0] == 'i'; }
    if "event:" <= line { assert line[0] == 'e'; }
    if "data:" <= line { assert line[0] == 'd'; }
  }

  lemma FieldIs(d: Draft, line: string)
    ensures SaysAnyId(line) ==> Field(d, line).id.Some? && SaysId(line, Field(d, line).id.value)
    ensures !SaysAnyId(line) ==> Field(d, line).id == d.id
    ensures Field(d, line).event == (if "event:" <= line then Trim(line[6..]) else d.event)
    ensures Field(d, line).data == d.data + (if "data:" <= line then [TrimStart(line[5..])] else [])
  {
    PrefixesApart(line);
    if "id:" <= line {
      var raw := Trim(line[3..]);
      NumeralIff(raw);
      if IsNumeral(raw) { assert SaysId(line, Value(raw)); }
      if n :| SaysId(line, n) { assert raw == Decimal(n); }
    }
    assert d.data + [] == d.data;
  }

  lemma {:induction false} FieldsAre(lines: seq<string>)
    ensures var d := Fields(BLANK, lines);
            && (forall n :: d.id == Some(n) ==> LastId(lines, n))
            && (d.id.None? ==> forall j :: 0 <= j < |lines| ==> !SaysAnyId(lines[j]))
            && LastEvent(lines, d.event)
            && d.data == DataOf(lines)
    decreases |lines|
  {
    hide Field, SaysId, SaysAnyId;
    if lines != [] {
      var n := |lines| - 1;
      var w, line := lines[..n], lines[n];
      assert lines == w + [line];
      FieldsAre(w);
      FieldsSplit(BLANK, w, line);
      FieldIs(Fields(BLANK, w), line);
      IdMoves(lines, Fields(BLANK, w).id, Fields(BLANK, lines).id);
      EventMoves(lines, Fields(BLANK, w).event);
    }
  }

  lemma IdMoves(lines: seq<string>, was: Option<nat>, now: Option<nat>)
    requires lines != []
    requires var w, line := lines[..|lines| - 1], lines[|lines| - 1];
             && (was.Some? ==> LastId(w, was.value))
             && (was.None? ==> forall j :: 0 <= j < |w| ==> !SaysAnyId(w[j]))
             && (SaysAnyId(line) ==> now.Some? && SaysId(line, now.value))
             && (!SaysAnyId(line) ==> now == was)
    ensures now.Some? ==> LastId(lines, now.value)
    ensures now.None? ==> forall j :: 0 <= j < |lines| ==> !SaysAnyId(lines[j])
  {
    hide SaysId, SaysAnyId;
    var n := |lines| - 1;
    var w := lines[..n];
    if !SaysAnyId(lines[n]) && was.Some? {
      var k :| 0 <= k < |w| && SaysId(w[k], was.value) && forall j :: k < j < |w| ==> !SaysAnyId(w[j]);
      assert SaysId(lines[k], was.value);
      forall j | k < j < |lines| ensures !SaysAnyId(lines[j]) { if j < n { assert w[j] == lines[j]; } }
    }
    if now.None? {
      forall j | 0 <= j < |lines| ensures !SaysAnyId(lines[j]) { if j < n { assert w[j] == lines[j]; } }
    }
  }

  lemma EventMoves(lines: seq<string>, was: string)
    requires lines != [] && LastEvent(lines[..|lines| - 1], was)
    ensures var line := lines[|lines| - 1];
            LastEvent(lines, if "event:" <= line then Trim(line[6..]) else was)
  {
    hide Trim;
    var n := |lines| - 1;
    var w := lines[..n];
    if !("event:" <= lines[n]) {
      if k :| 0 <= k < |w| && "event:" <= w[k] && was == Trim(w[k][6..])
              && forall j :: k < j < |w| ==> !("event:" <= w[j]) {
        assert "event:" <= lines[k] && was == Trim(lines[k][6..]);
        forall j | k < j < |lines| ensures !("event:" <= lines[j]) { if j < n { assert w[j] == lines[j]; } }
      } else {
        forall j | 0 <= j < |lines| ensures !("event:" <= lines[j]) { if j < n { assert w[j] == lines[j]; } }
      }
    }
  }

  lemma DecimalTells(m: nat, n: nat)
    requires Decimal(m) == Decimal(n)
    ensures m == n
  {
    DecimalReadsBack(m);
    DecimalReadsBack(n);
  }

  lemma LastIdIsOne(lines: seq<string>, m: nat, n: nat)
    requires LastId(lines, m) && LastId(lines, n)
    ensures m == n
  {
    hide SaysAnyId;
    var j :| 0 <= j < |lines| && SaysId(lines[j], m) && forall i :: j < i < |lines| ==> !SaysAnyId(lines[i]);
    var k :| 0 <= k < |lines| && SaysId(lines[k], n) && forall i :: k < i < |lines| ==> !SaysAnyId(lines[i]);
    Says(lines[j], m);
    Says(lines[k], n);
    assert j == k;
    DecimalTells(m, n);
  }

  lemma Says(line: string, n: nat)
    requires SaysId(line, n)
    ensures SaysAnyId(line)
  {
  }

  lemma LastEventIsOne(lines: seq<string>, a: string, b: string)
    requires LastEvent(lines, a) && LastEvent(lines, b)
    ensures a == b
  {
  }

  lemma FramesIn<D>(codec: Codec<D>, block: string)
    ensures ":" <= block ==> ParseBlock(codec, block) == []
    ensures var d := Fields(BLANK, Lines(block));
            !(":" <= block) ==>
              ParseBlock(codec, block) ==
                if d.id.Some? && d.id.value <= 9007199254740991 && d.data != [] && codec.decode(Join(d.data)).Some?
                then [Frame(d.id.value, d.event, codec.decode(Join(d.data)).value)] else []
  {
  }

  /**
   A block gives a frame exactly when it is no comment, its last id line that holds a printed
   number holds a safe integer, and its data lines joined decode. The frame has that id, the
   name of the last event line, and what was decoded. No block gives two frames.
   */
  lemma BlockGivesFrameIff<D>(codec: Codec<D>, block: string, f: Frame<D>)
    ensures |ParseBlock(codec, block)| <= 1
    ensures ParseBlock(codec, block) == [f] <==>
              && !(":" <= block)
              && LastId(Lines(block), f.id) && f.id <= 9007199254740991
              && LastEvent(Lines(block), f.event)
              && DataOf(Lines(block)) != []
              && codec.decode(Join(DataOf(Lines(block)))) == Some(f.data)
  {
    hide *;
    var lines := Lines(block);
    var d := Fields(BLANK, lines);
    FieldsAre(lines);
    FramesIn(codec, block);
    if LastId(lines, f.id) { NoLastId(lines, f.id); }
    if LastId(lines, f.id) && d.id.Some? { LastIdIsOne(lines, f.id, d.id.value); }
    if LastEvent(lines, f.event) { LastEventIsOne(lines, f.event, d.event); }
  }

  lemma NoLastId(lines: seq<string>, n: nat)
    requires LastId(lines, n)
    ensures exists j :: 0 <= j < |lines| && SaysAnyId(lines[j])
  {
    var k :| 0 <= k < |lines| && SaysId(lines[k], n);
    Says(lines[k], n);
  }

  // ---- when a stream is given up -------------------------------------------------------

  // Chunk k finds a rest with which it is longer than the limit.
  predicate Overflows(chunks: seq<string>, k: nat)
    requires k < |chunks|
  {
    |Remaining(Concat(chunks[..k]))| + |chunks[k]| > 1048576
  }

  lemma {:induction false} FailsOnce<D>(codec: Codec<D>, cursor: nat, chunks: seq<string>)
    requires NoCRCRLF(Concat(chunks))
    ensures FeedAll(codec, Start(cursor), chunks).failed <==> exists k :: 0 <= k < |chunks| && Overflows(chunks, k)
  {
    hide *;
    if chunks == [] {
      NothingFed(codec, cursor);
    } else {
      var n := |chunks| - 1;
      var before, chunk := chunks[..n], chunks[n];
      LastFed(codec, cursor, chunks);
      CleanFront(Concat(before), chunk);
      FailsOnce(codec, cursor, before);
      OverflowsIn(chunks, n);
      if !FeedAll(codec, Start(cursor), before).failed { ChunkingDoesNotMatter(codec, cursor, before); }
      if k :| 0 <= k < n && Overflows(chunks, k) { assert Overflows(before, k); }
    }
  }

  lemma NothingFed<D>(codec: Codec<D>, cursor: nat)
    ensures !FeedAll(codec, Start(cursor), []).failed
  {
  }

  lemma LastFed<D>(codec: Codec<D>, cursor: nat, chunks: seq<string>)
    requires chunks != []
    ensures var n := |chunks| - 1;
            var r := FeedAll(codec, Start(cursor), chunks[..n]);
            && Concat(chunks) == Concat(chunks[..n]) + chunks[n]
            && (r.failed ==> FeedAll(codec, Start(cursor), chunks) == r)
            && (!r.failed ==> (FeedAll(codec, Start(cursor), chunks).failed <==> |r.buffer| + |chunks[n]| > 1048576))
            && (Overflows(chunks, n) <==> |Remaining(Concat(chunks[..n]))| + |chunks[n]| > 1048576)
            && (!r.failed && FeedAll(codec, Start(cursor), chunks).failed ==>
                  FeedAll(codec, Start(cursor), chunks).events == r.events)
  {
    hide Parsed, Remaining;
  }

  lemma CleanFront(u: string, v: string)
    requires NoCRCRLF(u + v)
    ensures NoCRCRLF(u)
  {
    var s := u + v;
    forall i | 0 <= i < |u| - 2 ensures !(u[i] == '\r' && u[i + 1] == '\r' && u[i + 2] == '\n') {
      assert s[i] == u[i] && s[i + 1] == u[i + 1] && s[i + 2] == u[i + 2];
    }
  }

  lemma {:induction false} ConcatSplits(a: seq<string>, b: seq<string>)
    ensures Concat(a + b) == Concat(a) + Concat(b)
    decreases |b|
  {
    if b == [] {
      assert a + b == a;
    } else {
      var n := |b| - 1;
      assert (a + b)[..|a + b| - 1] == a + b[..n];
      ConcatSplits(a, b[..n]);
    }
  }

  lemma {:induction false} FailedStays<D>(codec: Codec<D>, r: Reader<D>, a: seq<string>, b: seq<string>)
    requires FeedAll(codec, r, a).failed
    ensures FeedAll(codec, r, a + b) == FeedAll(codec, r, a)
    decreases |b|
  {
    if b == [] {
      assert a + b == a;
    } else {
      assert (a + b)[..|a + b| - 1] == a + b[..|b| - 1];
      FailedStays(codec, r, a, b[..|b| - 1]);
    }
  }

  /**
   A stream is given up exactly when some chunk and the unfinished block before it are together
   longer than 1048576 characters; what was read by then are the frames before the first such chunk.
   */
  lemma GivenUpIff<D>(codec: Codec<D>, cursor: nat, chunks: seq<string>)
    requires NoCRCRLF(Concat(chunks))
    ensures FeedAll(codec, Start(cursor), chunks).failed <==> exists k :: 0 <= k < |chunks| && Overflows(chunks, k)
    ensures forall k :: 0 <= k < |chunks| && Overflows(chunks, k) && (forall j :: 0 <= j < k ==> !Overflows(chunks, j)) ==>
              FeedAll(codec, Start(cursor), chunks).events == Parsed(codec, Concat(chunks[..k]))
  {
    FailsOnce(codec, cursor, chunks);
    forall k | 0 <= k < |chunks| && Overflows(chunks, k) && (forall j :: 0 <= j < k ==> !Overflows(chunks, j))
      ensures FeedAll(codec, Start(cursor), chunks).events == Parsed(codec, Concat(chunks[..k]))
    {
      StopsAt(codec, cursor, chunks, k);
    }
  }

  lemma StopsAt<D>(codec: Codec<D>, cursor: nat, chunks: seq<string>, k: nat)
    requires NoCRCRLF(Concat(chunks)) && k < |chunks|
    requires Overflows(chunks, k) && forall j :: 0 <= j < k ==> !Overflows(chunks, j)
    ensures FeedAll(codec, Start(cursor), chunks).events == Parsed(codec, Concat(chunks[..k]))
  {
    hide *;
    var a, b := chunks[..k], chunks[k + 1..];
    var c := chunks[..k + 1];
    assert chunks == c + b;
    ConcatSplits(c, b);
    CleanFront(Concat(c), Concat(b));
    assert c[..k] == a && c[k] == chunks[k];
    OverflowsIn(chunks, k + 1);
    LastFed(codec, cursor, c);
    CleanFront(Concat(a), chunks[k]);
    OverflowsIn(chunks, k);
    FailsOnce(codec, cursor, a);
    FailsOnce(codec, cursor, c);
    ChunkingDoesNotMatter(codec, cursor, a);
    FailedStays(codec, Start(cursor), c, b);
  }

  lemma OverflowsIn(chunks: seq<string>, n: nat)
    requires n <= |chunks|
    ensures forall j :: 0 <= j < n ==> (Overflows(chunks[..n], j) <==> Overflows(chunks, j))
  {
    forall j | 0 <= j < n ensures Overflows(chunks[..n], j) <==> Overflows(chunks, j) {
      assert chunks[..n][..j] == chunks[..j];
    }
  }
}

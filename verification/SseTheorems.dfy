/** Printing, cutting and parsing an event stream gives back exactly what was printed. */
module SseTheorems {
  import opened Base
  import opened SseText
  import opened Sse
  import opened SseCuts

  // ---- one printed piece ---------------------------------------------------------------

  lemma TwoBreaksApart(a: string, b: string, c: string)
    requires '\n' !in a && '\n' !in b && '\n' !in c && b != "" && c != ""
    ensures forall i: nat :: !BreakAt(a + "\n" + (b + "\n" + c), i)
    ensures var s := a + "\n" + (b + "\n" + c); s[|s| - 1] != '\n'
  {
    var s := a + "\n" + (b + "\n" + c);
    assert forall k :: 0 <= k < |a| ==> a[k] != '\n';
    assert forall k :: 0 <= k < |b| ==> b[k] != '\n';
    assert forall k :: 0 <= k < |c| ==> c[k] != '\n';
    forall i: nat | i + 1 < |s| ensures !BreakAt(s, i) {
      if i == |a| {
        assert s[i + 1] == b[0];
      } else if i == |a| + 1 + |b| {
        assert s[i + 1] == c[0];
      } else {
        assert s[i] == if i < |a| then a[i] else if i <= |a| + |b| then b[i - |a| - 1] else c[i - |a| - |b| - 2];
      }
    }
    assert s[|s| - 1] == c[|c| - 1];
  }

  lemma NoBreaksAppend(a: string, b: string)
    requires NoBreaks(a) && NoBreaks(b)
    ensures NoBreaks(a + b)
  {
  }

  // The three lines of a printed frame.
  function Line<D>(codec: Codec<D>, f: Frame<D>, k: nat): string {
    if k == 0 then "id: " + Decimal(f.id)
    else if k == 1 then "event: " + f.event
    else "data: " + codec.encode(f.data)
  }

  lemma LinesAreClean<D>(codec: Codec<D>, f: Frame<D>)
    requires Printable(codec, Event(f))
    ensures NoBreaks(Line(codec, f, 0)) && NoBreaks(Line(codec, f, 1)) && NoBreaks(Line(codec, f, 2))
    ensures Body(codec, Event(f)) == Line(codec, f, 0) + "\n" + (Line(codec, f, 1) + "\n" + Line(codec, f, 2))
  {
    DecimalReadsBack(f.id);
    NumeralIsTrimmed(Decimal(f.id));
    NoBreaksAppend("id: ", Decimal(f.id));
    NoBreaksAppend("event: ", f.event);
    NoBreaksAppend("data: ", codec.encode(f.data));
  }

  lemma IdField(d: Draft, n: nat)
    ensures Field(d, "id: " + Decimal(n)) == d.(id := Some(n))
  {
    DecimalReadsBack(n);
    NumeralIsTrimmed(Decimal(n));
    TrimAfterSpace(Decimal(n));
    assert ("id: " + Decimal(n))[3..] == " " + Decimal(n);
  }

  lemma EventField(d: Draft, event: string)
    requires IsTrimmed(event)
    ensures Field(d, "event: " + event) == d.(event := event)
  {
    TrimAfterSpace(event);
    var line := "event: " + event;
    assert line[6..] == " " + event;
    assert line[0] == 'e';
    assert !("id:" <= line);
  }

  lemma DataField(d: Draft, json: string)
    requires json != "" && !White(json[0])
    ensures Field(d, "data: " + json) == d.(data := d.data + [json])
  {
    var line := "data: " + json;
    assert line[5..] == " " + json;
    assert (" " + json)[0] == ' ' && White(' ') && (" " + json)[1..] == json;
    assert TrimStart(" " + json) == TrimStart(json) == json;
    assert line[0] == 'd';
    assert !("id:" <= line) && !("event:" <= line);
  }

  lemma FrameParses<D>(codec: Codec<D>, f: Frame<D>)
    requires Printable(codec, Event(f))
    ensures ParseBlock(codec, Body(codec, Event(f))) == [f]
  {
    var a, b, c := Line(codec, f, 0), Line(codec, f, 1), Line(codec, f, 2);
    LinesAreClean(codec, f);
    var body := Body(codec, Event(f));
    assert body[0] == 'i';
    LinesFirst(a, b + "\n" + c);
    LinesFirst(b, c);
    OneLine(c);
    assert Lines(body) == [a, b, c];
    ThreeFields(a, b, c);
    IdField(BLANK, f.id);
    EventField(Draft(Some(f.id), "message", []), f.event);
    DataField(Draft(Some(f.id), f.event, []), codec.encode(f.data));
    assert [] + [codec.encode(f.data)] == [codec.encode(f.data)];
  }

  lemma ThreeFields(a: string, b: string, c: string)
    ensures Fields(BLANK, [a, b, c]) == Field(Field(Field(BLANK, a), b), c)
  {
    assert [a, b, c][1..] == [b, c];
    assert [b, c][1..] == [c];
    assert [c][1..] == [];
    var d := Field(BLANK, a);
    assert Fields(BLANK, [a, b, c]) == Fields(d, [b, c]);
    assert Fields(d, [b, c]) == Fields(Field(d, b), [c]);
    assert Fields(Field(d, b), [c]) == Fields(Field(Field(d, b), c), []);
  }

  // What a printed piece is to the parser: one block, and the frame it was printed from.
  lemma PieceParses<D>(codec: Codec<D>, p: Piece<D>)
    requires Printable(codec, p)
    ensures var body := Body(codec, p);
            && body != "" && body[|body| - 1] != '\n'
            && (forall i: nat :: !BreakAt(body, i))
            && ParseBlock(codec, body) == FramesOf([p])
            && NoCR(PieceText(codec, p))
  {
    match p
    case Event(f) =>
      LinesAreClean(codec, f);
      TwoBreaksApart(Line(codec, f, 0), Line(codec, f, 1), Line(codec, f, 2));
      FrameParses(codec, f);
      OneFrame(p);
    case Heartbeat(now) =>
      var body := Body(codec, p);
      DecimalReadsBack(now);
      NumeralIsTrimmed(Decimal(now));
      NoBreaksAppend(": heartbeat ", Decimal(now));
      assert body[|body| - 1] in body;
      forall i: nat ensures !BreakAt(body, i) { assert i + 1 < |body| ==> body[i] in body; }
      OneFrame(p);
  }

  // ---- the whole text ------------------------------------------------------------------

  predicate AllPrintable<D(==)>(codec: Codec<D>, pieces: seq<Piece<D>>) {
    forall i :: 0 <= i < |pieces| ==> Printable(codec, pieces[i])
  }

  lemma {:induction false} TextParses<D>(codec: Codec<D>, pieces: seq<Piece<D>>)
    requires AllPrintable(codec, pieces)
    ensures var t := Text(codec, pieces);
            NoCR(t) && ParseBlocks(codec, Blocks(t)) == FramesOf(pieces) && Rest(t) == ""
  {
    hide *;
    if pieces == [] {
      EmptyText(codec);
      assert pieces == [];
    } else {
      var p := pieces[0];
      FirstPrintable(codec, pieces);
      PieceParses(codec, p);
      TextParses(codec, pieces[1..]);
      TextSplits(codec, pieces);
      BlockFirst(Body(codec, p), Text(codec, pieces[1..]));
      ParseBlocksSplits(codec, [Body(codec, p)], Blocks(Text(codec, pieces[1..])));
      OneBlock(codec, Body(codec, p));
    }
  }

  lemma EmptyText<D>(codec: Codec<D>)
    ensures var none: seq<Piece<D>> := [];
            Text(codec, none) == "" && NoCR("") && ParseBlocks(codec, Blocks("")) == FramesOf(none) && Rest("") == ""
  {
  }

  lemma FirstPrintable<D>(codec: Codec<D>, pieces: seq<Piece<D>>)
    requires AllPrintable(codec, pieces) && pieces != []
    ensures Printable(codec, pieces[0]) && AllPrintable(codec, pieces[1..])
  {
  }

  lemma TextSplits<D>(codec: Codec<D>, pieces: seq<Piece<D>>)
    requires pieces != []
    ensures Text(codec, pieces) == PieceText(codec, pieces[0]) + Text(codec, pieces[1..])
    ensures Text(codec, pieces) == Body(codec, pieces[0]) + "\n\n" + Text(codec, pieces[1..])
    ensures NoCR(PieceText(codec, pieces[0])) && NoCR(Text(codec, pieces[1..])) ==> NoCR(Text(codec, pieces))
    ensures FramesOf(pieces) == FramesOf([pieces[0]]) + FramesOf(pieces[1..])
  {
    hide *;
    TextOpens(codec, pieces);
    PieceIs(codec, pieces[0]);
    FramesOpen(pieces);
    if NoCR(PieceText(codec, pieces[0])) && NoCR(Text(codec, pieces[1..])) {
      NoCRAppend(PieceText(codec, pieces[0]), Text(codec, pieces[1..]));
    }
  }

  lemma TextOpens<D>(codec: Codec<D>, pieces: seq<Piece<D>>)
    requires pieces != []
    ensures Text(codec, pieces) == PieceText(codec, pieces[0]) + Text(codec, pieces[1..])
  {
  }

  lemma FramesOpen<D>(pieces: seq<Piece<D>>)
    requires pieces != []
    ensures FramesOf(pieces) == FramesOf([pieces[0]]) + FramesOf(pieces[1..])
  {
    OneFrame(pieces[0]);
  }

  lemma OneFrame<D>(p: Piece<D>)
    ensures FramesOf([p]) == if p.Event? then [p.frame] else []
  {
    var none: seq<Piece<D>> := [p][1..];
    assert none == [] && FramesOf(none) == [];
  }

  lemma NoCRAppend(a: string, b: string)
    requires NoCR(a) && NoCR(b)
    ensures NoCR(a + b)
  {
  }

  lemma OneBlock<D>(codec: Codec<D>, block: string)
    ensures ParseBlocks(codec, [block]) == ParseBlock(codec, block)
  {
    assert [block][1..] == [];
  }

  // ---- chunks --------------------------------------------------------------------------

  // Parsing what was left over together with what arrives next is parsing it all at once.
  lemma ParseAppend<D>(codec: Codec<D>, u: string, v: string)
    requires NoCRCRLF(u)
    ensures Parsed(codec, u + v) == Parsed(codec, u) + Parsed(codec, Remaining(u) + v)
    ensures Remaining(u + v) == Remaining(Remaining(u) + v)
  {
    hide *;
    CleanRest(u);
    SeamlessIff(u, v);
    SeamIs(u, v);
    ParseBlocksSplits(codec, Blocks(Normalize(u)), Blocks(Normalize(Remaining(u) + v)));
    ParsedIs(codec, u);
    ParsedIs(codec, u + v);
    ParsedIs(codec, Remaining(u) + v);
  }

  lemma ParsedIs<D>(codec: Codec<D>, buffer: string)
    ensures Parsed(codec, buffer) == ParseBlocks(codec, Blocks(Normalize(buffer)))
    ensures Remaining(buffer) == Rest(Normalize(buffer))
  {
  }

  // The reading loop parses the blocks that the cut text falls into.
  lemma {:induction false} ReaderFollowsCuts<D>(codec: Codec<D>, cursor: nat, chunks: seq<string>)
    requires !FeedAll(codec, Start(cursor), chunks).failed
    ensures var r := FeedAll(codec, Start(cursor), chunks);
            && r.events == ParseBlocks(codec, Cut(chunks).0)
            && r.buffer == Cut(chunks).1
            && r.cursor == CursorAfter(cursor, r.events)
            && r.refreshed == Progress(cursor, r.events)
  {
    if chunks != [] {
      var before, chunk := chunks[..|chunks| - 1], chunks[|chunks| - 1];
      ReaderFollowsCuts(codec, cursor, before);
      var r := FeedAll(codec, Start(cursor), before);
      ParseBlocksSplits(codec, Cut(before).0, Blocks(Normalize(r.buffer + chunk)));
      ProgressSplits(cursor, r.events, Parsed(codec, r.buffer + chunk));
    }
  }

  // However a text is cut, the reading loop finds the frames of the whole text, unless some
  // buffer grows too long. The text may hold CR LF line ends.
  lemma ChunkingDoesNotMatter<D>(codec: Codec<D>, cursor: nat, chunks: seq<string>)
    requires NoCRCRLF(Concat(chunks))
    requires !FeedAll(codec, Start(cursor), chunks).failed
    ensures var r := FeedAll(codec, Start(cursor), chunks);
            && r.events == Parsed(codec, Concat(chunks))
            && r.buffer == Remaining(Concat(chunks))
            && r.cursor == CursorAfter(cursor, r.events)
            && r.refreshed == Progress(cursor, r.events)
  {
    ReaderFollowsCuts(codec, cursor, chunks);
    CleanCuts(chunks);
  }

  // With a CR directly before a CR LF the cut can matter: here the whole text holds no frame
  // boundary, but cut after the CR LF it does.
  lemma ChunkingMattersAfterDoubleCR()
    ensures Blocks(Normalize("a\n\r\r\n" + "b")) == []
    ensures Blocks(Normalize(Remaining("a\n\r\r\n") + "b")) == ["a"]
  {
    assert Normalize("\r\r\n") == "\r\n" by {
      assert "\r\r\n" == ['\r'] + "\r\n";
      NormalizeStep('\r', "\r\n");
      assert "\r\n" == ['\r'] + "\n";
      NormalizeStep('\r', "\n");
      assert "\n"[1..] == "" && Normalize("\r\n") == "\n";
    }
    assert Normalize("a\n\r\r\n") == "a\n\r\n" by {
      assert "a\n\r\r\n" == ['a'] + (['\n'] + "\r\r\n");
      NormalizeStep('\n', "\r\r\n");
      NormalizeStep('a', ['\n'] + "\r\r\n");
    }
    WholeText();
    CutText();
  }

  lemma WholeText()
    ensures Blocks(Normalize("a\n\r\r\n" + "b")) == []
  {
    assert "a\n\r\r\n" + "b" == ['a'] + (['\n'] + (['\r'] + (['\r'] + "\nb")));
    NormalizeStep('\r', "\nb");
    assert "\nb"[1..] == "b";
    NormalizeStep('\r', ['\r'] + "\nb");
    NormalizeStep('\n', ['\r'] + (['\r'] + "\nb"));
    NormalizeStep('a', ['\n'] + (['\r'] + (['\r'] + "\nb")));
    var n := Normalize("a\n\r\r\n" + "b");
    assert n == ['a'] + (['\n'] + (['\r'] + (['\n'] + "b"))) == "a\n\r\nb";
    forall i: nat ensures !BreakAt(n, i) {}
  }

  lemma CutText()
    requires Normalize("a\n\r\r\n") == "a\n\r\n"
    ensures Blocks(Normalize(Remaining("a\n\r\r\n") + "b")) == ["a"]
  {
    var r := Remaining("a\n\r\r\n");
    forall i: nat ensures !BreakAt("a\n\r\n", i) {}
    assert r == "a\n\r\n";
    assert r + "b" == ['a'] + (['\n'] + (['\r'] + "\nb"));
    NormalizeStep('\r', "\nb");
    assert "\nb"[1..] == "b";
    NormalizeStep('\n', ['\r'] + "\nb");
    NormalizeStep('a', ['\n'] + (['\r'] + "\nb"));
    var n := Normalize(r + "b");
    assert n == ['a'] + (['\n'] + (['\n'] + "b")) == "a\n\nb";
    FirstBreakIs(n, 1);
    assert n[..1] == "a" && n[3..] == "b";
  }

  // ---- main results --------------------------------------------------------------------

  // Any printed stream, with any heartbeats and cut anywhere, is read back exactly.
  lemma StreamRoundTrip<D>(codec: Codec<D>, cursor: nat, pieces: seq<Piece<D>>, chunks: seq<string>)
    requires AllPrintable(codec, pieces) && Concat(chunks) == Text(codec, pieces)
    requires !FeedAll(codec, Start(cursor), chunks).failed
    ensures var r := FeedAll(codec, Start(cursor), chunks);
            r.events == FramesOf(pieces) && r.buffer == ""
  {
    var t := Text(codec, pieces);
    TextParses(codec, pieces);
    NormalizeNoCR(t);
    NoCRIsClean(t);
    ChunkingDoesNotMatter(codec, cursor, chunks);
  }

  lemma NoCRIsClean(t: string)
    requires NoCR(t)
    ensures NoCRCRLF(t)
  {
    forall i | 0 <= i < |t| - 2 ensures !(t[i] == '\r' && t[i + 1] == '\r' && t[i + 2] == '\n') { assert t[i] in t; }
  }

  // As much of a printed stream as has arrived gives the first frames of it.
  lemma PartialText<D>(codec: Codec<D>, pieces: seq<Piece<D>>, t: string)
    requires AllPrintable(codec, pieces) && t <= Text(codec, pieces)
    ensures NoCRCRLF(t) && Parsed(codec, t) <= FramesOf(pieces)
    ensures t == Text(codec, pieces) ==> Parsed(codec, t) == FramesOf(pieces)
  {
    var whole := Text(codec, pieces);
    var rest := whole[|t|..];
    assert whole == t + rest;
    TextParses(codec, pieces);
    NormalizeNoCR(whole);
    PrefixNoCR(t, whole);
    NoCRIsClean(t);
    ParseAppend(codec, t, rest);
  }

  predicate Ascending<D>(cursor: nat, events: seq<Frame<D>>) {
    && (forall i :: 0 <= i < |events| ==> cursor < events[i].id)
    && (forall i, j :: 0 <= i < j < |events| ==> events[i].id < events[j].id)
  }

  function Ids<D>(events: seq<Frame<D>>): seq<nat> {
    seq(|events|, i requires 0 <= i < |events| => events[i].id)
  }

  lemma {:induction false} AscendingAllProgress<D>(cursor: nat, events: seq<Frame<D>>)
    requires Ascending(cursor, events)
    ensures Progress(cursor, events) == Ids(events)
    ensures CursorAfter(cursor, events) == if events == [] then cursor else events[|events| - 1].id
    decreases |events|
  {
    if events != [] {
      AscendingAllProgress(events[0].id, events[1..]);
      assert Ids(events) == [events[0].id] + Ids(events[1..]);
      if |events| > 1 { assert events[1..][|events| - 2] == events[|events| - 1]; }
    }
  }

  // The cursor only moves forward, and each id moves it at most once.
  lemma {:induction false} ProgressAscends<D>(cursor: nat, events: seq<Frame<D>>)
    ensures var ids := Progress(cursor, events);
            && (forall i :: 0 <= i < |ids| ==> cursor < ids[i] <= CursorAfter(cursor, events))
            && (forall i, j :: 0 <= i < j < |ids| ==> ids[i] < ids[j])
            && CursorAfter(cursor, events) == if ids == [] then cursor else ids[|ids| - 1]
    decreases |events|
  {
    if events != [] {
      ProgressAscends(Base.Max(cursor, events[0].id), events[1..]);
    }
  }

  // A journal's events arrive with ascending ids above the cursor: each is seen once, and the
  // cursor ends at the last.
  lemma AscendingStreamIsSeenOnce<D>(codec: Codec<D>, cursor: nat, pieces: seq<Piece<D>>, chunks: seq<string>)
    requires AllPrintable(codec, pieces) && Concat(chunks) == Text(codec, pieces)
    requires !FeedAll(codec, Start(cursor), chunks).failed
    requires Ascending(cursor, FramesOf(pieces))
    ensures var r := FeedAll(codec, Start(cursor), chunks);
            && r.refreshed == Ids(FramesOf(pieces))
            && (FramesOf(pieces) != [] ==> r.cursor == FramesOf(pieces)[|FramesOf(pieces)| - 1].id)
  {
    StreamRoundTrip(codec, cursor, pieces, chunks);
    TextParses(codec, pieces);
    NoCRIsClean(Text(codec, pieces));
    ChunkingDoesNotMatter(codec, cursor, chunks);
    AscendingAllProgress(cursor, FramesOf(pieces));
  }

  // ---- when the buffer limit is never reached ------------------------------------------

  predicate AtMost<D>(codec: Codec<D>, pieces: seq<Piece<D>>, size: nat) {
    forall i :: 0 <= i < |pieces| ==> |PieceText(codec, pieces[i])| <= size
  }

  // What is left over from a part of a printed stream is part of a single piece.
  lemma {:induction false} LeftoverIsShort<D>(codec: Codec<D>, pieces: seq<Piece<D>>, t: string, size: nat)
    requires AllPrintable(codec, pieces) && AtMost(codec, pieces, size) && t <= Text(codec, pieces)
    ensures NoCR(t) && |Rest(t)| <= size
    decreases |pieces|
  {
    hide *;
    TextParses(codec, pieces);
    PrefixNoCR(t, Text(codec, pieces));
    if pieces == [] {
      EmptyText(codec);
      assert pieces == [];
    } else {
      var p := pieces[0];
      var piece := PieceText(codec, p);
      FirstPrintable(codec, pieces);
      FirstFits(codec, pieces, size);
      PieceParses(codec, p);
      TextSplits(codec, pieces);
      if |t| < |piece| {
        ShortPrefix(t, Body(codec, p), Text(codec, pieces[1..]));
        PieceIs(codec, p);
        UnfinishedBlock(Body(codec, p), t);
      } else {
        var u := LongPrefix(t, piece, Text(codec, pieces[1..]));
        LeftoverIsShort(codec, pieces[1..], u, size);
        PieceIs(codec, p);
        BlockFirst(Body(codec, p), u);
      }
    }
  }

  lemma PieceIs<D>(codec: Codec<D>, p: Piece<D>)
    ensures PieceText(codec, p) == Body(codec, p) + "\n\n"
  {
  }

  lemma PrefixNoCR(t: string, whole: string)
    requires NoCR(whole) && t <= whole
    ensures NoCR(t)
  {
    assert forall i :: 0 <= i < |t| ==> t[i] == whole[i];
  }

  lemma FirstFits<D>(codec: Codec<D>, pieces: seq<Piece<D>>, size: nat)
    requires AtMost(codec, pieces, size) && pieces != []
    ensures |PieceText(codec, pieces[0])| <= size && AtMost(codec, pieces[1..], size)
  {
  }

  lemma ShortPrefix(t: string, body: string, rest: string)
    requires t <= body + "\n\n" + rest && |t| < |body + "\n\n"|
    ensures t <= body + "\n"
  {
    assert t == (body + "\n\n" + rest)[..|t|];
    assert body + "\n\n" + rest == (body + "\n") + ("\n" + rest);
  }

  lemma LongPrefix(t: string, piece: string, rest: string) returns (u: string)
    requires t <= piece + rest && |t| >= |piece|
    ensures t == piece + u && u <= rest
  {
    u := t[|piece|..];
    assert t == (piece + rest)[..|t|];
    assert u == rest[..|u|];
    assert t[..|piece|] == piece;
  }

  // If one piece and one chunk always fit the buffer together, the stream is never given up.
  lemma {:induction false} FittingStreamsNeverFail<D>(codec: Codec<D>, cursor: nat, pieces: seq<Piece<D>>, chunks: seq<string>,
                                                      size: nat, cut: nat)
    requires AllPrintable(codec, pieces) && AtMost(codec, pieces, size)
    requires Concat(chunks) <= Text(codec, pieces)
    requires forall i :: 0 <= i < |chunks| ==> |chunks[i]| <= cut
    requires size + cut <= MAX_SSE_BUFFER_CHARS
    ensures !FeedAll(codec, Start(cursor), chunks).failed
  {
    if chunks != [] {
      var before, chunk := chunks[..|chunks| - 1], chunks[|chunks| - 1];
      assert Concat(before) <= Concat(chunks);
      assert Concat(before) <= Text(codec, pieces);
      FittingStreamsNeverFail(codec, cursor, pieces, before, size, cut);
      LeftoverIsShort(codec, pieces, Concat(before), size);
      NoCRIsClean(Concat(before));
      NormalizeNoCR(Concat(before));
      ChunkingDoesNotMatter(codec, cursor, before);
    }
  }
}

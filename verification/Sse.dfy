/**
 Server-sent events: what the server prints, what the browser store parses, and the reading
 loop that feeds it chunk by chunk.
 */
module Sse {
  import opened Base
  import opened SseText

  const MAX_SSE_BUFFER_CHARS := 1048576

  // JSON.stringify and JSON.parse on the values that are sent.
  datatype Codec<!D> = Codec(encode: D -> string, decode: string -> Option<D>)

  datatype Frame<D> = Frame(id: nat, event: string, data: D)

  // ---- printing ------------------------------------------------------------------------

  datatype Piece<D> = Event(frame: Frame<D>) | Heartbeat(now: nat)

  // A printed piece without its closing empty line.
  function Body<D>(codec: Codec<D>, p: Piece<D>): string {
    match p
    case Event(f) => "id: " + Decimal(f.id) + "\n" + ("event: " + f.event + "\n" + ("data: " + codec.encode(f.data)))
    case Heartbeat(now) => ": heartbeat " + Decimal(now)
  }

  function PieceText<D>(codec: Codec<D>, p: Piece<D>): string {
    Body(codec, p) + "\n\n"
  }

  function Text<D>(codec: Codec<D>, pieces: seq<Piece<D>>): string {
    if pieces == [] then "" else PieceText(codec, pieces[0]) + Text(codec, pieces[1..])
  }

  function FramesOf<D>(pieces: seq<Piece<D>>): seq<Frame<D>> {
    if pieces == [] then []
    else (if pieces[0].Event? then [pieces[0].frame] else []) + FramesOf(pieces[1..])
  }

  predicate NoBreaks(s: string) {
    '\n' !in s && '\r' !in s
  }

  // A trimmed one-line event name, and JSON text of one line that decodes to its value and
  // does not start with white space.
  predicate Printable<D(==)>(codec: Codec<D>, p: Piece<D>) {
    p.Event? ==>
      var json := codec.encode(p.frame.data);
      && p.frame.id <= MAX_SAFE_INTEGER
      && NoBreaks(p.frame.event) && IsTrimmed(p.frame.event)
      && NoBreaks(json) && json != "" && !White(json[0])
      && codec.decode(json) == Some(p.frame.data)
  }

  // ---- parsing -------------------------------------------------------------------------

  datatype Draft = Draft(id: Option<nat>, event: string, data: seq<string>)

  const BLANK := Draft(None, "message", [])

  function Field(d: Draft, line: string): Draft {
    if "id:" <= line then
      var raw := Trim(line[3..]);
      if IsNumeral(raw) then d.(id := Some(Value(raw))) else d
    else if "event:" <= line then d.(event := Trim(line[6..]))
    else if "data:" <= line then d.(data := d.data + [TrimStart(line[5..])])
    else d
  }

  function Fields(d: Draft, lines: seq<string>): Draft
    decreases |lines|
  {
    if lines == [] then d else Fields(Field(d, lines[0]), lines[1..])
  }

  function Join(lines: seq<string>): string {
    if lines == [] then "" else if |lines| == 1 then lines[0] else lines[0] + "\n" + Join(lines[1..])
  }

  function Finish<D>(codec: Codec<D>, d: Draft): seq<Frame<D>> {
    if d.id.None? || d.id.value > MAX_SAFE_INTEGER || d.data == [] then []
    else
      match codec.decode(Join(d.data))
      case None => []
      case Some(value) => [Frame(d.id.value, d.event, value)]
  }

  function ParseBlock<D>(codec: Codec<D>, block: string): seq<Frame<D>> {
    if ":" <= block then [] else Finish(codec, Fields(BLANK, Lines(block)))
  }

  function ParseBlocks<D>(codec: Codec<D>, blocks: seq<string>): seq<Frame<D>> {
    if blocks == [] then [] else ParseBlock(codec, blocks[0]) + ParseBlocks(codec, blocks[1..])
  }

  function Parsed<D>(codec: Codec<D>, buffer: string): seq<Frame<D>> {
    ParseBlocks(codec, Blocks(Normalize(buffer)))
  }

  function Remaining(buffer: string): string {
    Rest(Normalize(buffer))
  }

  lemma {:induction false} ParseBlocksSplits<D>(codec: Codec<D>, a: seq<string>, b: seq<string>)
    ensures ParseBlocks(codec, a + b) == ParseBlocks(codec, a) + ParseBlocks(codec, b)
  {
    if a == [] {
      assert a + b == b;
    } else {
      assert (a + b)[1..] == a[1..] + b;
      ParseBlocksSplits(codec, a[1..], b);
    }
  }

  lemma {:induction false} FieldsSplit(d: Draft, a: seq<string>, line: string)
    ensures Fields(d, a + [line]) == Field(Fields(d, a), line)
    decreases |a|
  {
    if a == [] {
      assert (a + [line])[1..] == [];
    } else {
      assert (a + [line])[1..] == a[1..] + [line];
      FieldsSplit(Field(d, a[0]), a[1..], line);
    }
  }

  method ParseFields(lines: seq<string>) returns (id: Option<nat>, event: string, data: seq<string>)
    ensures Draft(id, event, data) == Fields(BLANK, lines)
  {
    id, event, data := None, "message", [];
    for l := 0 to |lines|
      invariant Draft(id, event, data) == Fields(BLANK, lines[..l])
    {
      var line := lines[l];
      assert lines[..l + 1] == lines[..l] + [line];
      FieldsSplit(BLANK, lines[..l], line);
      if "id:" <= line {
        var rawId := Trim(line[3..]);
        if IsNumeral(rawId) { id := Some(Value(rawId)); }
      } else if "event:" <= line {
        event := Trim(line[6..]);
      } else if "data:" <= line {
        data := data + [TrimStart(line[5..])];
      }
    }
    assert lines[..|lines|] == lines;
  }

  lemma OneMoreBlock<D>(codec: Codec<D>, blocks: seq<string>, b: nat)
    requires b < |blocks|
    ensures ParseBlocks(codec, blocks[..b + 1]) == ParseBlocks(codec, blocks[..b]) + ParseBlock(codec, blocks[b])
  {
    assert blocks[..b + 1] == blocks[..b] + [blocks[b]];
    ParseBlocksSplits(codec, blocks[..b], [blocks[b]]);
    assert [blocks[b]][1..] == [];
    assert ParseBlocks(codec, [blocks[b]]) == ParseBlock(codec, blocks[b]) + ParseBlocks(codec, []);
  }

  method ParseSseFrames<D>(codec: Codec<D>, buffer: string) returns (events: seq<Frame<D>>, rest: string)
    ensures events == Parsed(codec, buffer) && rest == Remaining(buffer)
  {
    var normalized := Normalize(buffer);
    var blocks := Blocks(normalized);
    rest := Rest(normalized);
    events := [];
    for b := 0 to |blocks|
      invariant events == ParseBlocks(codec, blocks[..b])
    {
      OneMoreBlock(codec, blocks, b);
      var block := blocks[b];
      if ":" <= block { continue; }
      var id, event, data := ParseFields(Lines(block));
      if id.None? || id.value > MAX_SAFE_INTEGER || data == [] { continue; }
      var value := codec.decode(Join(data));
      if value.Some? { events := events + [Frame(id.value, event, value.value)]; }
    }
    assert blocks[..|blocks|] == blocks;
  }

  // ---- the reading loop ----------------------------------------------------------------

  // The ids that move a cursor forward, in order.
  function Progress<D>(cursor: nat, events: seq<Frame<D>>): seq<nat>
    decreases |events|
  {
    if events == [] then []
    else if events[0].id <= cursor then Progress(cursor, events[1..])
    else [events[0].id] + Progress(events[0].id, events[1..])
  }

  function CursorAfter<D>(cursor: nat, events: seq<Frame<D>>): nat
    decreases |events|
  {
    if events == [] then cursor else CursorAfter(Base.Max(cursor, events[0].id), events[1..])
  }

  datatype Reader<D> = Reader(buffer: string, events: seq<Frame<D>>, cursor: nat, refreshed: seq<nat>, failed: bool)

  function Start<D>(cursor: nat): Reader<D> {
    Reader("", [], cursor, [], false)
  }

  // One chunk: too long a buffer ends the stream, otherwise its whole frames are taken.
  function Feed<D>(codec: Codec<D>, r: Reader<D>, chunk: string): Reader<D> {
    var buffer := r.buffer + chunk;
    if r.failed then r
    else if |buffer| > MAX_SSE_BUFFER_CHARS then r.(failed := true)
    else
      var events := Parsed(codec, buffer);
      Reader(Remaining(buffer), r.events + events, CursorAfter(r.cursor, events),
             r.refreshed + Progress(r.cursor, events), false)
  }

  function FeedAll<D>(codec: Codec<D>, r: Reader<D>, chunks: seq<string>): Reader<D> {
    if chunks == [] then r else Feed(codec, FeedAll(codec, r, chunks[..|chunks| - 1]), chunks[|chunks| - 1])
  }

  function Concat(chunks: seq<string>): string {
    if chunks == [] then "" else Concat(chunks[..|chunks| - 1]) + chunks[|chunks| - 1]
  }

  lemma {:induction false} ProgressSplits<D>(cursor: nat, a: seq<Frame<D>>, b: seq<Frame<D>>)
    ensures Progress(cursor, a + b) == Progress(cursor, a) + Progress(CursorAfter(cursor, a), b)
    ensures CursorAfter(cursor, a + b) == CursorAfter(CursorAfter(cursor, a), b)
    decreases |a|
  {
    if a == [] {
      assert a + b == b;
    } else {
      assert (a + b)[1..] == a[1..] + b;
      ProgressSplits(Base.Max(cursor, a[0].id), a[1..], b);
    }
  }

  lemma OneMoreFrame<D>(cursor: nat, events: seq<Frame<D>>, e: nat)
    requires e < |events|
    ensures var before := CursorAfter(cursor, events[..e]);
            && CursorAfter(cursor, events[..e + 1]) == Base.Max(before, events[e].id)
            && Progress(cursor, events[..e + 1]) ==
                 Progress(cursor, events[..e]) + if events[e].id <= before then [] else [events[e].id]
  {
    assert events[..e + 1] == events[..e] + [events[e]];
    ProgressSplits(cursor, events[..e], [events[e]]);
    assert [events[e]][1..] == [];
  }

  class EventReader<D> {
    const codec: Codec<D>
    var buffer: string
    var events: seq<Frame<D>>
    var lastEventId: nat
    var refreshed: seq<nat>
    var failed: bool

    ghost function State(): Reader<D>
      reads this
    {
      Reader(buffer, events, lastEventId, refreshed, failed)
    }

    constructor (codec: Codec<D>, cursor: nat)
      ensures State() == Start(cursor) && this.codec == codec
    {
      this.codec := codec;
      buffer, events, lastEventId, refreshed, failed := "", [], cursor, [], false;
    }

    method Receive(chunk: string)
      modifies this
      ensures State() == Feed(codec, old(State()), chunk)
    {
      if failed { return; }
      if |buffer + chunk| > MAX_SSE_BUFFER_CHARS {
        failed := true;
        return;
      }
      var parsed, rest := ParseSseFrames(codec, buffer + chunk);
      buffer := rest;
      events := events + parsed;
      Advance(parsed);
    }

    // The cursor moves over the new frames and each move asks for a refresh.
    method Advance(parsed: seq<Frame<D>>)
      modifies this`lastEventId, this`refreshed
      ensures refreshed == old(refreshed) + Progress(old(lastEventId), parsed)
      ensures lastEventId == CursorAfter(old(lastEventId), parsed)
    {
      for e := 0 to |parsed|
        invariant refreshed == old(refreshed) + Progress(old(lastEventId), parsed[..e])
        invariant lastEventId == CursorAfter(old(lastEventId), parsed[..e])
      {
        OneMoreFrame(old(lastEventId), parsed, e);
        if parsed[e].id <= lastEventId { continue; }
        lastEventId := parsed[e].id;
        refreshed := refreshed + [parsed[e].id];
      }
      assert parsed[..|parsed|] == parsed;
    }
  }

  // ---- the server's side ---------------------------------------------------------------

  // One open response. sent is what was handed to the socket; slow says that a write did not
  // drain, after which the response is closed.
  class EventStreamResponse<D> {
    var pending: seq<Frame<D>>
    var streaming: bool
    var closed: bool
    var sent: seq<Frame<D>>

    ghost predicate Valid()
      reads this
    {
      (!streaming ==> sent == [] && !closed) && (streaming && !closed ==> |pending| <= |sent|)
    }

    // Every event heard so far, in order: what was sent and what is still held back.
    ghost function Heard(): seq<Frame<D>>
      reads this
    {
      sent + (if |sent| < |pending| then pending[|sent|..] else [])
    }

    constructor ()
      ensures Valid() && Heard() == [] && !closed && !streaming
    {
      pending, streaming, closed, sent := [], false, false, [];
    }

    // The subscription's listener; it is not called once the response is closed.
    method OnEvent(event: Frame<D>, slow: bool)
      requires Valid() && !closed
      modifies this
      ensures Valid() && Heard() == old(Heard()) + [event]
      ensures streaming == old(streaming) && closed == (old(streaming) && slow)
      ensures streaming ==> sent == Heard()
    {
      if !streaming {
        pending := pending + [event];
        return;
      }
      sent := sent + [event];
      if slow { closed := true; }
    }

    // The headers are out: what was held back is written, up to the first write that stalls.
    method StartStreaming(slowAt: Option<nat>)
      requires Valid() && !streaming
      modifies this
      ensures Valid() && streaming && pending == old(pending)
      ensures Heard() == old(Heard()) && sent <= Heard()
      ensures !closed ==> sent == Heard()
      ensures closed <==> slowAt.Some? && slowAt.value < |pending|
      ensures closed ==> |sent| == slowAt.value + 1
    {
      streaming := true;
      for n := 0 to |pending|
        invariant !closed && streaming && pending == old(pending) && sent == pending[..n]
        invariant slowAt.Some? ==> slowAt.value >= n
      {
        sent := sent + [pending[n]];
        if slowAt == Some(n) {
          closed := true;
          return;
        }
      }
    }
  }
}

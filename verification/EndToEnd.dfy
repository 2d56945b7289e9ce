/** From the durable journal to the browser's cursor: spliced, printed, broken off, resumed and read back. */
module EndToEnd {
  import opened Base
  import opened EventWindow
  import opened LiveSplice
  import Sse
  import SseTheorems

  // ---- what a response writes ----------------------------------------------------------

  // The frames of journal rows; a payload is stored as JSON text and sent as the value it stands for.
  function Printed<D>(rows: seq<Row>, parse: string -> D): seq<Sse.Frame<D>> {
    seq(|rows|, i requires 0 <= i < |rows| => Sse.Frame(rows[i].seqNo, rows[i].event.kind, parse(rows[i].event.payload)))
  }

  // One response to a subscription that hears the rows: the headers go out after `held` of them, and the write of
  // row `stall`, if there is one, does not drain.
  method Serve<D>(rows: seq<Row>, parse: string -> D, held: nat, stall: nat) returns (response: Sse.EventStreamResponse<D>)
    requires held <= |rows|
    ensures fresh(response) && response.sent <= Printed(rows, parse)
    ensures response.closed <==> stall < |rows|
    ensures if response.closed then |response.sent| == stall + 1 else response.sent == Printed(rows, parse)
  {
    response := new Sse.EventStreamResponse<D>();
    var all := Printed(rows, parse);
    for i := 0 to held
      invariant response.Valid() && !response.closed && !response.streaming && fresh(response)
      invariant response.Heard() == all[..i]
    {
      response.OnEvent(all[i], false);
      assert all[..i + 1] == all[..i] + [all[i]];
    }
    assert response.pending == response.Heard();
    response.StartStreaming(if stall < held then Some(stall) else None);
    assert all[..held] <= all;
    for i := held to |rows|
      invariant response.Valid() && response.streaming && fresh(response)
      invariant response.closed ==> stall < |rows| && |response.sent| == stall + 1 && response.sent <= all
      invariant !response.closed ==> stall >= i && response.sent == all[..i] && response.Heard() == all[..i]
    {
      if response.closed { break; }
      response.OnEvent(all[i], i == stall);
      assert all[..i + 1] == all[..i] + [all[i]];
    }
    assert all[..|rows|] == all;
  }

  // ---- one connection ------------------------------------------------------------------

  // What the journal held at the time, what was published around the subscription, what was written with any
  // heartbeats in between, and what arrived before the connection ended.
  datatype Connection<D> = Connection(history: seq<Event>, script: Script, pieces: seq<Sse.Piece<D>>, chunks: seq<string>)

  ghost predicate Works<D>(codec: Sse.Codec<D>, parse: string -> D, after: nat, c: Connection<D>) {
    && after <= |c.history| && Orderly(c.history, after, c.script)
    && Sse.FramesOf(c.pieces) <= Printed(Delivered(c.history, after, c.script), parse)
    && SseTheorems.AllPrintable(codec, c.pieces)
    && Sse.Concat(c.chunks) <= Sse.Text(codec, c.pieces)
    && !Sse.FeedAll(codec, Sse.Start(after), c.chunks).failed
  }

  // Everything was written and everything arrived.
  ghost predicate Whole<D>(codec: Sse.Codec<D>, parse: string -> D, after: nat, c: Connection<D>)
    requires after <= |c.history|
  {
    && Sse.FramesOf(c.pieces) == Printed(Delivered(c.history, after, c.script), parse)
    && Sse.Concat(c.chunks) == Sse.Text(codec, c.pieces)
  }

  ghost function Read<D>(codec: Sse.Codec<D>, after: nat, c: Connection<D>): Sse.Reader<D> {
    Sse.FeedAll(codec, Sse.Start(after), c.chunks)
  }

  // Events of a history as they are sent, from one past the cursor up to `through`.
  function Sent<D>(history: seq<Event>, after: nat, through: nat, parse: string -> D): seq<Sse.Frame<D>>
    requires after <= through <= |history|
  {
    Printed(Numbered(history[after..through], after + 1), parse)
  }

  // The ids from one past the cursor up to the newest.
  function Span(after: nat, newest: nat): seq<nat>
    requires after <= newest
  {
    seq(newest - after, i requires 0 <= i < newest - after => after + 1 + i)
  }

  lemma SentIs<D>(history: seq<Event>, after: nat, through: nat, parse: string -> D)
    requires after <= through <= |history|
    ensures var frames := Sent(history, after, through, parse);
            && |frames| == through - after
            && SseTheorems.Ids(frames) == Span(after, through)
            && SseTheorems.Ascending(after, frames)
            && (frames != [] ==> frames[|frames| - 1].id == through)
    ensures forall i :: 0 <= i < through - after ==>
              Sent(history, after, through, parse)[i]
              == Sse.Frame(after + 1 + i, history[after + i].kind, parse(history[after + i].payload))
  {
  }

  lemma SentPrefix<D>(history: seq<Event>, after: nat, through: nat, parse: string -> D, frames: seq<Sse.Frame<D>>)
    requires after <= through <= |history| && frames <= Sent(history, after, through, parse)
    ensures after + |frames| <= through && frames == Sent(history, after, after + |frames|, parse)
  {
    hide *;
    SentIs(history, after, through, parse);
    SentIs(history, after, after + |frames|, parse);
  }

  /**
   A browser that connects with a cursor to an orderly subscription has read, when the connection ends, the events right
   after its cursor, each once, in order, with their names and data, and its cursor stands at the last of them. If the
   connection lasted until everything written had arrived, these are all events there are.
   */
  lemma JournalReachesBrowser<D>(codec: Sse.Codec<D>, parse: string -> D, after: nat, c: Connection<D>)
    requires Works(codec, parse, after, c)
    ensures var r, final := Read(codec, after, c), FinalHistory(c.history, after, c.script);
            && |c.history| <= |final| && c.history <= final
            && after <= r.cursor <= |final|
            && r.events == Sent(final, after, r.cursor, parse)
            && r.refreshed == Span(after, r.cursor)
            && (Whole(codec, parse, after, c) ==> r.cursor == |final|)
  {
    hide *;
    WorksIs(codec, parse, after, c);
    var r, final := Read(codec, after, c), FinalHistory(c.history, after, c.script);
    SpliceIsExact(c.history, after, c.script);
    FinalExtends(c.history, after, c.script);
    var t := Sse.Concat(c.chunks);
    SseTheorems.PartialText(codec, c.pieces, t);
    SseTheorems.ChunkingDoesNotMatter(codec, after, c.chunks);
    AllSent(final, after, parse);
    assert r.events <= Sent(final, after, |final|, parse);
    SentPrefix(final, after, |final|, parse, r.events);
    SentIs(final, after, |final|, parse);
    SentIs(final, after, after + |r.events|, parse);
    SseTheorems.AscendingAllProgress(after, r.events);
  }

  lemma WorksIs<D>(codec: Sse.Codec<D>, parse: string -> D, after: nat, c: Connection<D>)
    requires Works(codec, parse, after, c)
    ensures after <= |c.history| && Orderly(c.history, after, c.script)
    ensures Sse.FramesOf(c.pieces) <= Printed(Delivered(c.history, after, c.script), parse)
    ensures SseTheorems.AllPrintable(codec, c.pieces) && Sse.Concat(c.chunks) <= Sse.Text(codec, c.pieces)
    ensures Read(codec, after, c) == Sse.FeedAll(codec, Sse.Start(after), c.chunks) && !Read(codec, after, c).failed
    ensures Whole(codec, parse, after, c) <==>
              && Sse.FramesOf(c.pieces) == Printed(Delivered(c.history, after, c.script), parse)
              && Sse.Concat(c.chunks) == Sse.Text(codec, c.pieces)
  {
  }

  lemma FinalExtends(history: seq<Event>, after: nat, script: Script)
    requires after <= |history|
    ensures |history| <= |FinalHistory(history, after, script)| && history <= FinalHistory(history, after, script)
  {
  }

  lemma AllSent<D>(history: seq<Event>, after: nat, parse: string -> D)
    requires after <= |history|
    ensures Sent(history, after, |history|, parse) == Printed(Numbered(history[after..], after + 1), parse)
  {
    assert history[after..|history|] == history[after..];
  }

  // ---- any number of connections -------------------------------------------------------

  // Each connection resumes at the cursor the last one reached; the journal only grows in between.
  ghost predicate Resumes<D>(codec: Sse.Codec<D>, parse: string -> D, after: nat, cs: seq<Connection<D>>)
    decreases |cs|
  {
    cs == []
    || (Works(codec, parse, after, cs[0])
        && (|cs| > 1 ==> FinalHistory(cs[0].history, after, cs[0].script) <= cs[1].history)
        && Resumes(codec, parse, Read(codec, after, cs[0]).cursor, cs[1..]))
  }

  ghost function Received<D>(codec: Sse.Codec<D>, after: nat, cs: seq<Connection<D>>): seq<Sse.Frame<D>>
    decreases |cs|
  {
    if cs == [] then [] else Read(codec, after, cs[0]).events + Received(codec, Read(codec, after, cs[0]).cursor, cs[1..])
  }

  ghost function CursorAt<D>(codec: Sse.Codec<D>, after: nat, cs: seq<Connection<D>>): nat
    decreases |cs|
  {
    if cs == [] then after else CursorAt(codec, Read(codec, after, cs[0]).cursor, cs[1..])
  }

  // The journal when the last connection ended.
  ghost function Journal<D>(codec: Sse.Codec<D>, parse: string -> D, after: nat, cs: seq<Connection<D>>): seq<Event>
    requires cs != [] && Resumes(codec, parse, after, cs)
    decreases |cs|
  {
    if |cs| == 1 then FinalHistory(cs[0].history, after, cs[0].script)
    else Journal(codec, parse, Read(codec, after, cs[0]).cursor, cs[1..])
  }

  lemma SentJoins<D>(before: seq<Event>, history: seq<Event>, a: nat, b: nat, c: nat, parse: string -> D)
    requires a <= b <= c <= |history| && b <= |before| && before <= history
    ensures Sent(before, a, b, parse) + Sent(history, b, c, parse) == Sent(history, a, c, parse)
  {
    hide *;
    SentIs(before, a, b, parse);
    SentIs(history, b, c, parse);
    SentIs(history, a, c, parse);
  }

  /**
   Over any number of connections, broken off anywhere, the browser reads every event after its first cursor up to
   its last one exactly once, in order, with names and data: no reconnection repeats or skips any.
   */
  lemma {:induction false} ReconnectionsLoseNothing<D>(codec: Sse.Codec<D>, parse: string -> D, after: nat, cs: seq<Connection<D>>)
    requires cs != [] && Resumes(codec, parse, after, cs)
    ensures cs[0].history <= Journal(codec, parse, after, cs)
    ensures after <= CursorAt(codec, after, cs) <= |Journal(codec, parse, after, cs)|
    ensures Received(codec, after, cs) == Sent(Journal(codec, parse, after, cs), after, CursorAt(codec, after, cs), parse)
    decreases |cs|
  {
    hide *;
    var r := Read(codec, after, cs[0]);
    ResumesIs(codec, parse, after, cs);
    JournalReachesBrowser(codec, parse, after, cs[0]);
    if |cs| == 1 {
      assert r.events + [] == r.events;
    } else {
      ReconnectionsLoseNothing(codec, parse, r.cursor, cs[1..]);
      var final, last := FinalHistory(cs[0].history, after, cs[0].script), Journal(codec, parse, r.cursor, cs[1..]);
      assert final <= last;
      SentJoins(final, last, after, r.cursor, CursorAt(codec, r.cursor, cs[1..]), parse);
    }
  }

  lemma ResumesIs<D>(codec: Sse.Codec<D>, parse: string -> D, after: nat, cs: seq<Connection<D>>)
    requires cs != [] && Resumes(codec, parse, after, cs)
    ensures Works(codec, parse, after, cs[0])
    ensures var r := Read(codec, after, cs[0]);
            && Received(codec, after, cs) == r.events + Received(codec, r.cursor, cs[1..])
            && CursorAt(codec, after, cs) == CursorAt(codec, r.cursor, cs[1..])
            && (|cs| == 1 ==>
                  && Received(codec, r.cursor, cs[1..]) == [] && CursorAt(codec, r.cursor, cs[1..]) == r.cursor
                  && after <= |cs[0].history|
                  && Journal(codec, parse, after, cs) == FinalHistory(cs[0].history, after, cs[0].script))
            && (|cs| > 1 ==>
                  && after <= |cs[0].history| && FinalHistory(cs[0].history, after, cs[0].script) <= cs[1..][0].history
                  && Resumes(codec, parse, r.cursor, cs[1..])
                  && Journal(codec, parse, after, cs) == Journal(codec, parse, r.cursor, cs[1..]))
  {
  }
}

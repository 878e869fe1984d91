/** Anthropic's event stream turned into OpenAI records, as a function of the upstream bytes
    (internal/backend/anthropic.go), and what that function means. */
module EventStream {
  import opened Wrappers
  import opened Bytes
  import opened Sse
  import opened Codec

  // ----- one event: lines up to a blank one -----

  datatype Pumped = Ended | Event(data: Bytes, rest: Bytes)

  function LineAt(src: Bytes, i: nat): Bytes
    requires i < |src|
  {
    TrimRight(src[..i + 1], {'\r', '\n'})
  }

  /** Data lines are joined without a newline; an event cut off by the end of the stream is dropped. */
  function Pump(src: Bytes, acc: Bytes): (p: Pumped)
    ensures p.Event? ==> |p.rest| < |src|
    decreases |src|
  {
    var i := IndexByte(src, '\n');
    if i < 0 then Ended
    else
      var line := LineAt(src, i);
      if line == "" then Event(acc, src[i + 1..])
      else if HasPrefix(line, "data:") then Pump(src[i + 1..], acc + TrimSpace(line[5..]))
      else Pump(src[i + 1..], acc)
  }

  // ----- one event's chunks -----

  datatype Ident = Ident(id: string, model: string)

  const UNNAMED: Ident := Ident("", "anthropic")

  function Renamed(who: Ident, ev: AnthropicEvent): Ident {
    if ev.kind == "message_start" then
      Ident(if ev.messageID != "" then ev.messageID else who.id,
            if ev.messageModel != "" then ev.messageModel else who.model)
    else who
  }

  predicate IsTextDelta(ev: AnthropicEvent) {
    ev.kind == "content_block_delta" && ev.deltaKind == "text_delta" && ev.text != ""
  }

  /** The chunks one event other than message_stop queues, `who` being the reader after it. */
  function ChunksFor(who: Ident, ev: AnthropicEvent): (cs: seq<Chunk>)
    ensures |cs| <= 1
  {
    if ev.kind == "message_start" then [Chunk(who.id, who.model, Role, None)]
    else if IsTextDelta(ev) then [Chunk(who.id, who.model, Content(ev.text), None)]
    else if ev.kind == "content_block_delta" && ev.deltaKind == "thinking_delta" && ev.thinking != "" then
      [Chunk(who.id, who.model, Reasoning(ev.thinking), None)]
    else if ev.kind == "message_delta" && ev.stopReason != "" then
      [Chunk(who.id, who.model, NoDelta, StopToFinish(ev.stopReason))]
    else []
  }

  function Encoded(codec: Codec, cs: seq<Chunk>): (ps: seq<Bytes>)
    ensures |ps| == |cs| && forall k :: 0 <= k < |cs| ==> ps[k] == codec.encodeChunk(cs[k])
  {
    seq(|cs|, k requires 0 <= k < |cs| => codec.encodeChunk(cs[k]))
  }

  function Rendered(codec: Codec, cs: seq<Chunk>): Bytes {
    Render(Encoded(codec, cs))
  }

  /** The bytes one event other than message_stop queues. */
  function Queued(codec: Codec, who: Ident, ev: AnthropicEvent): Bytes {
    Rendered(codec, ChunksFor(who, ev))
  }

  // ----- the whole output of the reader -----

  /** What is still to be read from a reader with an empty buffer and `src` ahead of it. */
  function Output(codec: Codec, src: Bytes, who: Ident): Bytes
    decreases |src|
  {
    match Pump(src, [])
    case Ended => DONE_RECORD
    case Event(data, rest) =>
      if data == [] then Output(codec, rest, who)
      else
        match codec.decodeEvent(data)
        case None => Output(codec, rest, who)
        case Some(ev) =>
          if ev.kind == "message_stop" then DONE_RECORD
          else Queued(codec, Renamed(who, ev), ev) + Output(codec, rest, Renamed(who, ev))
  }

  lemma OutputStep(codec: Codec, src: Bytes, who: Ident)
    ensures var p := Pump(src, []);
      Output(codec, src, who) ==
        if p == Ended then DONE_RECORD
        else
          var ev := if p.data == [] then None else codec.decodeEvent(p.data);
          if ev == None then Output(codec, p.rest, who)
          else if ev.value.kind == "message_stop" then DONE_RECORD
          else Queued(codec, Renamed(who, ev.value), ev.value) + Output(codec, p.rest, Renamed(who, ev.value))
  {
  }

  // ----- the same, told event by event -----

  /** The complete, decodable events of a stream. */
  function Events(codec: Codec, src: Bytes): seq<AnthropicEvent>
    decreases |src|
  {
    match Pump(src, [])
    case Ended => []
    case Event(data, rest) =>
      if data != [] && codec.decodeEvent(data).Some?
      then [codec.decodeEvent(data).value] + Events(codec, rest)
      else Events(codec, rest)
  }

  function BeforeStop(evs: seq<AnthropicEvent>): seq<AnthropicEvent> {
    if evs == [] || evs[0].kind == "message_stop" then [] else [evs[0]] + BeforeStop(evs[1..])
  }

  function ChunksOf(who: Ident, evs: seq<AnthropicEvent>): seq<Chunk>
    decreases |evs|
  {
    if evs == [] then []
    else
      var next := Renamed(who, evs[0]);
      ChunksFor(next, evs[0]) + ChunksOf(next, evs[1..])
  }

  function StreamEvents(codec: Codec, src: Bytes): seq<AnthropicEvent> {
    BeforeStop(Events(codec, src))
  }

  lemma EncodedAppend(codec: Codec, a: seq<Chunk>, b: seq<Chunk>)
    ensures Encoded(codec, a + b) == Encoded(codec, a) + Encoded(codec, b)
  {
  }

  /** The reader's output is the rendered chunks of the events before message_stop (or before the end
      of the upstream, whichever is first) followed by exactly one terminator record. */
  lemma {:induction false} OutputIsRendered(codec: Codec, src: Bytes, who: Ident)
    ensures Output(codec, src, who)
         == Rendered(codec, ChunksOf(who, StreamEvents(codec, src))) + DONE_RECORD
    decreases |src|
  {
    match Pump(src, [])
    case Ended =>
    case Event(data, rest) =>
      if data == [] || codec.decodeEvent(data).None? {
        OutputIsRendered(codec, rest, who);
      } else {
        var ev := codec.decodeEvent(data).value;
        if ev.kind != "message_stop" {
          var next := Renamed(who, ev);
          var evs := StreamEvents(codec, rest);
          OutputIsRendered(codec, rest, next);
          assert StreamEvents(codec, src) == [ev] + evs;
          ChunksOfCons(who, ev, evs);
          var now, later := ChunksFor(next, ev), ChunksOf(next, evs);
          EncodedAppend(codec, now, later);
          RenderAppend(Encoded(codec, now), Encoded(codec, later));
        }
      }
  }

  lemma ChunksOfCons(who: Ident, ev: AnthropicEvent, evs: seq<AnthropicEvent>)
    ensures ChunksOf(who, [ev] + evs) == ChunksFor(Renamed(who, ev), ev) + ChunksOf(Renamed(who, ev), evs)
  {
    assert ([ev] + evs)[1..] == evs;
  }
}

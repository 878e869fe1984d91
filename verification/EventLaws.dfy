/** The grammar the stream reader accepts: which events it reads from which text, told without the
    reader. */
module EventLaws {
  import opened Wrappers
  import opened Bytes
  import opened Codec
  import opened Wire
  import opened Upstream
  import opened Relay
  import opened RelayLaws
  import E = EventStream
  import L = StreamLaws
  import S = SinkStates
  import Sse

  // ----- the text of a stream -----

  /** A line that carries data, or any other line that is not blank: an event name, an id, a comment. */
  datatype Line = Data(value: Bytes) | Other(text: Bytes)

  /** A line and what ends it. */
  datatype Ended = Ended(line: Line, end: Bytes)

  /** The lines of one event and the end of the blank line behind them. */
  datatype Record = Record(lines: seq<Ended>, end: Bytes)

  /** "\n", "\r\n", or a newline behind several returns. */
  predicate IsEnd(end: Bytes) {
    end != [] && end[|end| - 1] == '\n' && forall k :: 0 <= k < |end| - 1 ==> end[k] == '\r'
  }

  predicate ProperLine(l: Line) {
    match l
    case Data(value) => Free(value, '\n')
    case Other(text) => text != [] && text[|text| - 1] != '\r' && Free(text, '\n') && !("data:" <= text)
  }

  predicate ProperLines(ls: seq<Ended>) {
    forall k :: 0 <= k < |ls| ==> ProperLine(ls[k].line) && IsEnd(ls[k].end)
  }

  predicate Proper(rs: seq<Record>) {
    forall k :: 0 <= k < |rs| ==> ProperLines(rs[k].lines) && IsEnd(rs[k].end)
  }

  function LineText(l: Line): Bytes {
    match l
    case Data(value) => "data:" + value
    case Other(text) => text
  }

  function LinesText(ls: seq<Ended>): Bytes {
    if ls == [] then [] else LineText(ls[0].line) + ls[0].end + LinesText(ls[1..])
  }

  function RecordText(r: Record): Bytes {
    LinesText(r.lines) + r.end
  }

  function Text(rs: seq<Record>): Bytes {
    if rs == [] then [] else RecordText(rs[0]) + Text(rs[1..])
  }

  // ----- what it says -----

  /** The values of the data lines, trimmed, one directly behind the other. */
  function DataOf(ls: seq<Ended>): Bytes {
    if ls == [] then []
    else (if ls[0].line.Data? then TrimSpace(ls[0].line.value) else []) + DataOf(ls[1..])
  }

  /** The events the records decode to; a record without data or with data that is no event is none. */
  function Decoded(codec: Codec, rs: seq<Record>): seq<AnthropicEvent> {
    if rs == [] then []
    else
      var data := DataOf(rs[0].lines);
      (if data != [] && codec.decodeEvent(data).Some? then [codec.decodeEvent(data).value] else [])
      + Decoded(codec, rs[1..])
  }

  // ----- one line -----

  const ENDS: set<char> := {'\r', '\n'}

  lemma {:induction false} EndIsStripped(s: Bytes, end: Bytes)
    requires forall k :: 0 <= k < |end| ==> end[k] in ENDS
    ensures TrimRight(s + end, ENDS) == TrimRight(s, ENDS)
    decreases |end|
  {
    if end == [] {
      assert s + end == s;
    } else {
      var t := s + end;
      assert t[..|t| - 1] == s + end[..|end| - 1];
      EndIsStripped(s, end[..|end| - 1]);
    }
  }

  lemma {:induction false} FreeStrip(v: Bytes)
    requires Free(v, '\n')
    ensures TrimRight(v, ENDS) == TrimRight(v, {'\r'})
  {
    if v != [] && v[|v| - 1] == '\r' {
      FreeStrip(v[..|v| - 1]);
    }
  }

  /** Where the line ends, and what is left of it without its end. */
  lemma LineSplits(s: Bytes, end: Bytes, more: Bytes)
    requires Free(s, '\n') && IsEnd(end)
    ensures var src := s + end + more;
      var i := IndexByte(src, '\n');
      i >= 0 && src[i + 1..] == more && E.LineAt(src, i) == TrimRight(s, {'\r'})
  {
    hide TrimRight, IndexByte;
    var src, i := s + end + more, |s| + |end| - 1;
    forall k | 0 <= k < i ensures src[..i][k] != '\n' {
      assert if k < |s| then src[k] == s[k] else src[k] == end[k - |s|];
    }
    IndexByteIs(src, '\n', i);
    assert src[..i + 1] == s + end;
    EndIsStripped(s, end);
    FreeStrip(s);
  }

  /** What a line adds to the data gathered. */
  function Value(l: Line): Bytes {
    if l.Data? then TrimSpace(l.value) else []
  }

  lemma PumpLine(l: Line, end: Bytes, more: Bytes, acc: Bytes)
    requires ProperLine(l) && IsEnd(end)
    ensures E.Pump(LineText(l) + end + more, acc) == E.Pump(more, acc + Value(l))
  {
    hide TrimRight, TrimSpace, IndexByte;
    var s := LineText(l);
    assert l.Data? ==> forall k :: 0 <= k < 5 ==> s[k] != '\n';
    assert l.Data? ==> s[5..] == l.value;
    assert Free(s, '\n');
    LineSplits(s, end, more);
    match l
    case Data(value) =>
      Sse.StripTail(s, 5);
      var line := TrimRight(s, {'\r'});
      assert "data:" <= line && line[5..] == TrimRight(value, {'\r'});
      Sse.StripThenTrim(value);
    case Other(text) =>
      NothingStripped(text);
      assert acc + [] == acc;
  }

  lemma NothingStripped(s: Bytes)
    requires s != [] && s[|s| - 1] != '\r'
    ensures TrimRight(s, {'\r'}) == s
  {
  }

  lemma PumpBlank(end: Bytes, more: Bytes, acc: Bytes)
    requires IsEnd(end)
    ensures E.Pump(end + more, acc) == E.Event(acc, more)
  {
    LineSplits([], end, more);
    assert [] + end + more == end + more;
  }

  // ----- lines, records, streams -----

  lemma {:induction false} PumpLines(ls: seq<Ended>, more: Bytes, acc: Bytes)
    requires ProperLines(ls)
    ensures E.Pump(LinesText(ls) + more, acc) == E.Pump(more, acc + DataOf(ls))
    decreases |ls|
  {
    hide E.Pump, TrimSpace;
    if ls == [] {
      assert LinesText(ls) + more == more && acc + DataOf(ls) == acc;
    } else {
      var l, end, rest := ls[0].line, ls[0].end, LinesText(ls[1..]);
      assert LinesText(ls) + more == LineText(l) + end + (rest + more);
      PumpLine(l, end, rest + more, acc);
      PumpLines(ls[1..], more, acc + Value(l));
      assert acc + Value(l) + DataOf(ls[1..]) == acc + DataOf(ls);
    }
  }

  lemma PumpRecord(r: Record, more: Bytes)
    requires ProperLines(r.lines) && IsEnd(r.end)
    ensures E.Pump(RecordText(r) + more, []) == E.Event(DataOf(r.lines), more)
  {
    hide E.Pump, LinesText, DataOf;
    assert RecordText(r) + more == LinesText(r.lines) + (r.end + more);
    PumpLines(r.lines, r.end + more, []);
    PumpBlank(r.end, more, [] + DataOf(r.lines));
    assert [] + DataOf(r.lines) == DataOf(r.lines);
  }

  /** The reader reads the records it is given, one after the other, whatever follows them. */
  lemma {:induction false} RecordsAreRead(codec: Codec, rs: seq<Record>, rest: Bytes)
    requires Proper(rs)
    ensures E.Events(codec, Text(rs) + rest) == Decoded(codec, rs) + E.Events(codec, rest)
    decreases |rs|
  {
    hide E.Pump, RecordText, DataOf;
    if rs == [] {
      assert Text(rs) + rest == rest;
    } else {
      var more := Text(rs[1..]) + rest;
      assert Text(rs) + rest == RecordText(rs[0]) + more;
      PumpRecord(rs[0], more);
      RecordsAreRead(codec, rs[1..], rest);
    }
  }

  /** Lines without a blank one behind them, and a line without its end, are no event. */
  lemma TailIsNoEvent(codec: Codec, ls: seq<Ended>, cut: Bytes)
    requires ProperLines(ls) && Free(cut, '\n')
    ensures E.Events(codec, LinesText(ls) + cut) == []
  {
    PumpLines(ls, cut, []);
    assert IndexByte(cut, '\n') < 0;
  }

  /** Every byte sequence is such a stream: records, then an unfinished one. */
  lemma {:induction false} EveryStream(src: Bytes) returns (rs: seq<Record>, ls: seq<Ended>, cut: Bytes)
    ensures Proper(rs) && ProperLines(ls) && Free(cut, '\n')
    ensures src == Text(rs) + (LinesText(ls) + cut)
    decreases |src|
  {
    hide TrimRight, Text, LinesText, Proper, ProperLines;
    var i := IndexByte(src, '\n');
    if i < 0 {
      rs, ls, cut := [], [], src;
      NoText(src);
    } else {
      var line, end := SplitEnd(src[..i + 1]);
      var rs1, ls1;
      rs1, ls1, cut := EveryStream(src[i + 1..]);
      rs, ls := FirstLine(line, end, rs1, ls1, cut);
      assert src == line + end + (Text(rs1) + (LinesText(ls1) + cut));
    }
  }

  lemma NoText(cut: Bytes)
    ensures Proper([]) && ProperLines([]) && cut == Text([]) + (LinesText([]) + cut)
  {
  }

  /** One more line in front: of the first record, of the unfinished one, or a blank one. */
  lemma FirstLine(line: Bytes, end: Bytes, rs0: seq<Record>, ls0: seq<Ended>, cut: Bytes)
    returns (rs: seq<Record>, ls: seq<Ended>)
    requires Proper(rs0) && ProperLines(ls0) && IsEnd(end)
    requires line != [] ==> ProperLine(LineOf(line)) && LineText(LineOf(line)) == line
    ensures Proper(rs) && ProperLines(ls)
    ensures Text(rs) + (LinesText(ls) + cut) == line + end + (Text(rs0) + (LinesText(ls0) + cut))
  {
    hide Text, LinesText, ProperLine, IsEnd, LineOf, LineText;
    rs, ls := rs0, ls0;
    if line == [] {
      rs := Prepend(Record([], end), rs0);
      NoText([]);
      assert Text(rs) == end + Text(rs0);
    } else if rs0 == [] {
      ls := Push(Ended(LineOf(line), end), ls0);
      NoText([]);
    } else {
      var first, tail := rs0[0], rs0[1..];
      var lines := Push(Ended(LineOf(line), end), first.lines);
      var same := Prepend(first, tail);
      rs := Prepend(Record(lines, first.end), tail);
      assert same == rs0;
    }
  }

  lemma Push(l: Ended, ls: seq<Ended>) returns (all: seq<Ended>)
    requires ProperLines(ls) && ProperLine(l.line) && IsEnd(l.end)
    ensures ProperLines(all) && LinesText(all) == LineText(l.line) + l.end + LinesText(ls)
  {
    hide ProperLine, IsEnd;
    all := [l] + ls;
    assert all[1..] == ls;
  }

  lemma Prepend(r: Record, rs: seq<Record>) returns (all: seq<Record>)
    requires Proper(rs) && ProperLines(r.lines) && IsEnd(r.end)
    ensures all == [r] + rs && Proper(all) && Text(all) == RecordText(r) + Text(rs)
  {
    hide ProperLines, IsEnd;
    all := [r] + rs;
    assert all[1..] == rs;
  }

  function LineOf(text: Bytes): Line {
    if "data:" <= text then Data(text[5..]) else Other(text)
  }

  /** A line up to its newline, taken apart. */
  lemma SplitEnd(s: Bytes) returns (line: Bytes, end: Bytes)
    requires s != [] && s[|s| - 1] == '\n' && Free(s[..|s| - 1], '\n')
    ensures s == line + end && IsEnd(end) && Free(line, '\n') && (line != [] ==> line[|line| - 1] != '\r')
    ensures LineText(LineOf(line)) == line && (line != [] ==> ProperLine(LineOf(line)))
  {
    hide LineOf, LineText, ProperLine;
    var n := |s| - 1;
    while n > 0 && s[n - 1] == '\r'
      invariant 0 <= n <= |s| - 1
      invariant forall k :: n <= k < |s| - 1 ==> s[k] == '\r'
    {
      n := n - 1;
    }
    line, end := s[..n], s[n..];
    assert forall k :: 0 <= k < n ==> line[k] == s[..|s| - 1][k];
    LineIs(line);
  }

  lemma LineIs(line: Bytes)
    requires Free(line, '\n') && (line != [] ==> line[|line| - 1] != '\r')
    ensures LineText(LineOf(line)) == line && (line != [] ==> ProperLine(LineOf(line)))
  {
    if "data:" <= line {
      assert line == "data:" + line[5..];
    }
  }

  // ----- the chunks the events make -----

  /** The last id and the last model named by a message_start. */
  function LastID(evs: seq<AnthropicEvent>): string {
    if evs == [] then ""
    else
      var ev := evs[|evs| - 1];
      if ev.kind == "message_start" && ev.messageID != "" then ev.messageID else LastID(evs[..|evs| - 1])
  }

  function LastModel(evs: seq<AnthropicEvent>): string {
    if evs == [] then "anthropic"
    else
      var ev := evs[|evs| - 1];
      if ev.kind == "message_start" && ev.messageModel != "" then ev.messageModel else LastModel(evs[..|evs| - 1])
  }

  function Finish(stopReason: string): string {
    match stopReason
    case "max_tokens" => "length"
    case "tool_use" => "tool_calls"
    case _ => "stop"
  }

  /** What an event tells, if anything: a role, non-empty text or thinking, or the reason to stop. */
  function Tells(ev: AnthropicEvent): Option<(Delta, Option<string>)> {
    match ev.kind
    case "message_start" => Some((Role, None))
    case "content_block_delta" =>
      (match ev.deltaKind
       case "text_delta" => if ev.text == "" then None else Some((Content(ev.text), None))
       case "thinking_delta" => if ev.thinking == "" then None else Some((Reasoning(ev.thinking), None))
       case _ => None)
    case "message_delta" => if ev.stopReason == "" then None else Some((NoDelta, Some(Finish(ev.stopReason))))
    case _ => None
  }

  /** A chunk for each event that tells something, under the last id and model named up to it. */
  function Told(evs: seq<AnthropicEvent>): seq<Chunk> {
    if evs == [] then []
    else
      var told := Tells(evs[|evs| - 1]);
      Told(evs[..|evs| - 1])
      + if told == None then [] else [Chunk(LastID(evs), LastModel(evs), told.value.0, told.value.1)]
  }

  function After(who: E.Ident, evs: seq<AnthropicEvent>): E.Ident
    decreases |evs|
  {
    if evs == [] then who else After(E.Renamed(who, evs[0]), evs[1..])
  }

  lemma {:induction false} ChunksSnoc(who: E.Ident, evs: seq<AnthropicEvent>, ev: AnthropicEvent)
    ensures After(who, evs + [ev]) == E.Renamed(After(who, evs), ev)
    ensures E.ChunksOf(who, evs + [ev])
         == E.ChunksOf(who, evs) + E.ChunksFor(E.Renamed(After(who, evs), ev), ev)
    decreases |evs|
  {
    hide E.ChunksFor, E.Renamed;
    if evs == [] {
      assert evs + [ev] == [ev] && [ev][1..] == [];
    } else {
      assert (evs + [ev])[1..] == evs[1..] + [ev];
      ChunksSnoc(E.Renamed(who, evs[0]), evs[1..], ev);
    }
  }

  /** The reader's chunks are those the events tell. */
  lemma {:induction false} ChunksAreTold(evs: seq<AnthropicEvent>)
    ensures E.ChunksOf(E.UNNAMED, evs) == Told(evs)
    ensures After(E.UNNAMED, evs) == E.Ident(LastID(evs), LastModel(evs))
    decreases |evs|
  {
    if evs != [] {
      var init, ev := evs[..|evs| - 1], evs[|evs| - 1];
      assert evs == init + [ev];
      ChunksAreTold(init);
      ChunksSnoc(E.UNNAMED, init, ev);
      OneIsTold(E.Renamed(After(E.UNNAMED, init), ev), ev);
    }
  }

  lemma OneIsTold(who: E.Ident, ev: AnthropicEvent)
    ensures E.ChunksFor(who, ev)
         == if Tells(ev) == None then [] else [Chunk(who.id, who.model, Tells(ev).value.0, Tells(ev).value.1)]
  {
  }

  /** For an OpenAI consumer: the output on records and an unfinished one is what their events tell before
      message_stop, framed, and one terminator. */
  lemma WrittenOutput(codec: Codec, rs: seq<Record>, ls: seq<Ended>, cut: Bytes)
    requires Proper(rs) && ProperLines(ls) && Free(cut, '\n')
    ensures var evs := E.BeforeStop(Decoded(codec, rs));
      && E.StreamEvents(codec, Text(rs) + (LinesText(ls) + cut)) == evs
      && E.Output(codec, Text(rs) + (LinesText(ls) + cut), E.UNNAMED)
         == Sse.Render(E.Encoded(codec, Told(evs))) + Sse.DONE_RECORD
  {
    hide E.Output, E.ChunksOf, E.Events, Text, LinesText, Decoded, Sse.Render, Told, E.BeforeStop;
    var src := Text(rs) + (LinesText(ls) + cut);
    RecordsAreRead(codec, rs, LinesText(ls) + cut);
    TailIsNoEvent(codec, ls, cut);
    assert E.Events(codec, src) == Decoded(codec, rs);
    E.OutputIsRendered(codec, src, E.UNNAMED);
    ChunksAreTold(E.BeforeStop(Decoded(codec, rs)));
  }

  /** Nothing from the first message_stop on counts. */
  lemma {:induction false} StopCuts(evs: seq<AnthropicEvent>, stop: AnthropicEvent, later: seq<AnthropicEvent>)
    requires stop.kind == "message_stop" && forall k :: 0 <= k < |evs| ==> evs[k].kind != "message_stop"
    ensures E.BeforeStop(evs) == evs == E.BeforeStop(evs + [stop] + later)
  {
    if evs == [] {
      assert evs + [stop] + later == [stop] + later;
    } else {
      assert (evs + [stop] + later)[1..] == evs[1..] + [stop] + later;
      StopCuts(evs[1..], stop, later);
    }
  }

  // ----- what the Anthropic sink writes is such a stream -----

  function Name(e: SinkEvent): Bytes {
    match e
    case MessageStart(_, _, _) => "message_start"
    case BlockStart => "content_block_start"
    case TextDelta(_) => "content_block_delta"
    case BlockStop => "content_block_stop"
    case MessageDelta(_, _) => "message_delta"
    case MessageStop => "message_stop"
  }

  /** A named event with one data line. */
  function Written(codec: Codec, e: SinkEvent): Record {
    Record([Ended(Other("event: " + Name(e)), "\n"), Ended(Data(" " + codec.encodeEvent(e)), "\n")], "\n")
  }

  function WrittenAll(codec: Codec, es: seq<SinkEvent>): (rs: seq<Record>)
    ensures |rs| == |es| && forall k :: 0 <= k < |es| ==> rs[k] == Written(codec, es[k])
  {
    seq(|es|, k requires 0 <= k < |es| => Written(codec, es[k]))
  }

  lemma WrittenText(codec: Codec, e: SinkEvent)
    ensures RecordText(Written(codec, e)) == RenderEvent(codec, e)
    ensures DataOf(Written(codec, e).lines) == TrimSpace(codec.encodeEvent(e))
  {
    hide TrimSpace, LinesText, DataOf;
    var name, data := Ended(Other("event: " + Name(e)), "\n"), Ended(Data(" " + codec.encodeEvent(e)), "\n");
    assert Written(codec, e).lines == [name, data];
    TwoLines(name, data);
    TrimSkipsBlank(codec.encodeEvent(e));
    var b := codec.encodeEvent(e);
    assert "data:" + (" " + b) == "data: " + b;
  }

  lemma TwoLines(a: Ended, b: Ended)
    ensures LinesText([a, b]) == LineText(a.line) + a.end + (LineText(b.line) + b.end)
    ensures DataOf([a, b]) == Value(a.line) + Value(b.line)
  {
    hide TrimSpace, LineText;
    LineThen(a, [b]);
    LineThen(b, []);
    assert [a] + [b] == [a, b] && [b] + [] == [b];
    assert LinesText([]) == [] && DataOf([]) == [];
  }

  lemma LineThen(l: Ended, ls: seq<Ended>)
    ensures LinesText([l] + ls) == LineText(l.line) + l.end + LinesText(ls)
    ensures DataOf([l] + ls) == Value(l.line) + DataOf(ls)
  {
    hide TrimSpace, LineText;
    assert ([l] + ls)[1..] == ls;
  }

  lemma WrittenIsProper(codec: Codec, e: SinkEvent)
    requires Free(codec.encodeEvent(e), '\n')
    ensures ProperLines(Written(codec, e).lines) && IsEnd(Written(codec, e).end)
  {
    var name := "event: " + Name(e);
    NameIsPlain(e);
    assert name[..7] == "event: " && name[7..] == Name(e);
    forall k | 0 <= k < |name| ensures name[k] != '\n' {
      assert if k < 7 then name[k] == "event: "[k] else name[k] == Name(e)[k - 7];
    }
    assert name[0] == 'e' && name[|name| - 1] == Name(e)[|Name(e)| - 1];
  }

  lemma NameIsPlain(e: SinkEvent)
    ensures Free(Name(e), '\n') && Name(e) != [] && Name(e)[|Name(e)| - 1] != '\r'
  {
  }

  /** The sink's output is a stream of named records, and reading it with the repository's own reader gives
      back what each event was encoded to, in order. */
  lemma {:induction false} SinkIsReadBack(codec: Codec, es: seq<SinkEvent>, rest: Bytes)
    requires forall k :: 0 <= k < |es| ==> Free(codec.encodeEvent(es[k]), '\n')
    ensures RenderEvents(codec, es) == Text(WrittenAll(codec, es)) && Proper(WrittenAll(codec, es))
    ensures E.Events(codec, RenderEvents(codec, es) + rest) == Decoded(codec, WrittenAll(codec, es)) + E.Events(codec, rest)
  {
    hide RenderEvent, RecordText, Written, E.Events, Decoded, ProperLines, IsEnd;
    WrittenIs(codec, es);
    RecordsAreRead(codec, WrittenAll(codec, es), rest);
  }

  lemma {:induction false} WrittenIs(codec: Codec, es: seq<SinkEvent>)
    requires forall k :: 0 <= k < |es| ==> Free(codec.encodeEvent(es[k]), '\n')
    ensures RenderEvents(codec, es) == Text(WrittenAll(codec, es)) && Proper(WrittenAll(codec, es))
  {
    hide RenderEvent, RecordText, Written, ProperLines, IsEnd, Free, Proper, Text;
    if es == [] {
      NoText([]);
      assert WrittenAll(codec, es) == [];
    } else {
      var tail := es[1..];
      WrittenIs(codec, tail);
      WrittenIsProper(codec, es[0]);
      WrittenText(codec, es[0]);
      var all := Prepend(Written(codec, es[0]), WrittenAll(codec, tail));
      assert WrittenAll(codec, es) == all;
    }
  }

  // ----- the chain on a written stream -----

  /** Records, then an unfinished one: the consumer's message has the texts and the stop reason of the
      records' events before message_stop, when every chunk fits and nothing is cancelled. */
  lemma WrittenChain(codec: Codec, sink: S.SinkState, ctx: Ctx, usage: Usage,
                     rs: seq<Record>, ls: seq<Ended>, cut: Bytes)
    requires Faithful(codec) && ctx.Live() && Proper(rs) && ProperLines(ls) && Free(cut, '\n')
    requires sink.AnthropicSink? && sink.wire.heads == [] && sink.stream == S.NEW_STREAM
    requires forall c :: c in Told(E.BeforeStop(Decoded(codec, rs))) ==> L.Fits(codec.encodeChunk(c))
    ensures var src := Text(rs) + (LinesText(ls) + cut);
      RelayBytes(codec, sink, ctx, usage, E.Output(codec, src, E.UNNAMED), false).sink.wire.body
        == sink.wire.body
           + Cut(RenderEvents(codec, L.Translation(sink.freshID, E.BeforeStop(Decoded(codec, rs)))), sink.wire.fuse)
  {
    hide RelayBytes, E.Output, L.Translation, L.Kept, E.ChunksOf, E.Events, E.BeforeStop, Faithful, L.Fits;
    hide Text, LinesText, Decoded, RenderEvents, Cut, Told;
    var src := Text(rs) + (LinesText(ls) + cut);
    WrittenOutput(codec, rs, ls, cut);
    ChunksAreTold(E.BeforeStop(Decoded(codec, rs)));
    var cs := E.ChunksOf(E.UNNAMED, E.BeforeStop(Decoded(codec, rs)));
    L.KeptIsFitting(codec, cs);
    L.Chain(codec, sink, ctx, usage, src);
    assert cs[..|cs|] == cs;
  }
}

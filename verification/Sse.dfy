/** The server-sent-events subset of the relay: record splitting and data extraction
    (internal/router/proxy.go). The field rules are those of sections 9.2.5 and 9.2.6 of the
    WHATWG HTML Living Standard, restricted to "data" lines and "\n\n" separators. */
module Sse {
  import opened Wrappers
  import opened Bytes

  const MAX_SSE_TOKEN: nat := 16 * 1024 * 1024
  const DATA: Bytes := "data: "
  const DONE: Bytes := "[DONE]"
  const DONE_RECORD: Bytes := "data: [DONE]\n\n"

  // ----- splitSSE and the scanner's result -----

  datatype Split = Split(advance: nat, token: Option<Bytes>)

  function SplitSSE(data: Bytes, atEOF: bool): (r: Split)
    ensures r.advance <= |data|
    ensures r.token.Some? <==> r.advance > 0
  {
    if atEOF && |data| == 0 then Split(0, None)
    else
      var i := IndexBlank(data);
      if i >= 0 then Split(i + 2, Some(data[..i]))
      else if atEOF then Split(|data|, Some(data))
      else Split(0, None)
  }

  /** Once a record is decided, no further byte and no end of stream changes it. */
  lemma SplitIsStable(data: Bytes, more: Bytes, atEOF: bool)
    requires SplitSSE(data, false).token.Some?
    ensures SplitSSE(data + more, atEOF) == SplitSSE(data, false)
  {
    BlankInPrefix(data, more);
    var i := IndexBlank(data);
    assert (data + more)[..i] == data[..i];
  }

  lemma BlankInPrefix(data: Bytes, more: Bytes)
    requires IndexBlank(data) >= 0
    ensures IndexBlank(data + more) == IndexBlank(data)
  {
    var i := IndexBlank(data);
    forall j | BlankAt(data + more, j) ensures i <= j {
      if j < i { assert BlankAt(data, j); }
    }
    assert BlankAt(data + more, i);
    IndexBlankIs(data + more, i);
  }

  /** One scanned record; `failed` is whether the scanner already holds a read error when it
      delivers the record (only the unterminated rest of a broken stream comes that way). */
  datatype Token = Token(record: Bytes, failed: bool)

  /** All records of a stream, and whether the scanner reports an error after the last one. */
  datatype Scanned = Scanned(tokens: seq<Token>, failed: bool)

  /** What scanning the whole of `data` gives. The stream ends cleanly, or, when `broken`, with a
      read error. A record that does not fit in `limit` bytes together with its separator, or an
      unterminated rest that fills the buffer, stops the scan with an error. */
  function Scan(data: Bytes, broken: bool, limit: nat): Scanned
    decreases |data|
  {
    var i := IndexBlank(data);
    if i >= 0 then
      if i + 2 > limit then Scanned([], true)
      else
        var rest := Scan(data[i + 2..], broken, limit);
        Scanned([Token(data[..i], false)] + rest.tokens, rest.failed)
    else if |data| >= limit then Scanned([], true)
    else if data == [] then Scanned([], broken)
    else Scanned([Token(data, broken)], broken)
  }

  /** A decided first record can be taken off before the rest of the stream is known. */
  lemma ScanFirst(buf: Bytes, rest: Bytes, broken: bool, limit: nat)
    requires IndexBlank(buf) >= 0 && |buf| <= limit
    ensures var i := IndexBlank(buf);
      var later := Scan(buf[i + 2..] + rest, broken, limit);
      Scan(buf + rest, broken, limit) == Scanned([Token(buf[..i], false)] + later.tokens, later.failed)
  {
    var i := IndexBlank(buf);
    BlankInPrefix(buf, rest);
    assert (buf + rest)[..i] == buf[..i];
    assert (buf + rest)[i + 2..] == buf[i + 2..] + rest;
  }

  /** What is left at the end of the stream: one unterminated record, or nothing. */
  lemma ScanRest(rest: Bytes, broken: bool, limit: nat)
    requires IndexBlank(rest) < 0 && |rest| < limit
    ensures Scan(rest, broken, limit)
         == Scanned(if rest == [] then [] else [Token(rest, broken)], broken)
    ensures Scan([], broken, limit) == Scanned([], broken)
  {
  }

  /** A full buffer without a blank line ends the scan, whatever follows. */
  lemma ScanFull(buf: Bytes, rest: Bytes, broken: bool, limit: nat)
    requires IndexBlank(buf) < 0 && |buf| >= limit
    ensures Scan(buf + rest, broken, limit) == Scanned([], true)
  {
    assert forall j :: BlankAt(buf + rest, j) && j + 2 <= |buf| ==> BlankAt(buf, j);
  }

  /** Records, each with its separator. */
  function Reassembled(tokens: seq<Token>): Bytes {
    if tokens == [] then [] else tokens[0].record + "\n\n" + Reassembled(tokens[1..])
  }

  /** `tokens` is all of `data`; the last record may lack its separator. */
  predicate Covers(tokens: seq<Token>, data: Bytes) {
    || data == Reassembled(tokens)
    || (tokens != [] && data == Reassembled(tokens[..|tokens| - 1]) + tokens[|tokens| - 1].record)
  }

  /** Scanning splits: no record contains a blank line, the records make up a prefix of the stream with
      nothing lost or reordered, and the whole of it unless the scan fails. */
  lemma {:induction false} ScanSplits(data: Bytes, broken: bool, limit: nat)
    ensures var s := Scan(data, broken, limit);
      && (forall k :: 0 <= k < |s.tokens| ==> IndexBlank(s.tokens[k].record) < 0)
      && (Covers(s.tokens, data) || (s.failed && Reassembled(s.tokens) <= data))
    decreases |data|
  {
    hide Covers, Reassembled, IndexBlank;
    var i := IndexBlank(data);
    EdgesCovered(data, broken);
    if 0 <= i <= limit - 2 {
      var rest := Scan(data[i + 2..], broken, limit);
      ScanSplits(data[i + 2..], broken, limit);
      assert forall j :: BlankAt(data[..i], j) ==> BlankAt(data, j);
      assert data == data[..i] + "\n\n" + data[i + 2..];
      CoversCons(Token(data[..i], false), rest.tokens, data[i + 2..]);
    }
  }

  lemma EdgesCovered(data: Bytes, broken: bool)
    ensures Reassembled([]) <= data && Covers([], []) && Covers([Token(data, broken)], data)
  {
    assert [Token(data, broken)][..0] == [] && Reassembled([]) + data == data;
  }

  lemma CoversCons(t: Token, tokens: seq<Token>, data: Bytes)
    ensures Covers(tokens, data) ==> Covers([t] + tokens, t.record + "\n\n" + data)
    ensures Reassembled(tokens) <= data ==> Reassembled([t] + tokens) <= t.record + "\n\n" + data
  {
    var all := [t] + tokens;
    assert all[1..] == tokens;
    if tokens != [] {
      var init := all[..|all| - 1];
      assert init == [t] + tokens[..|tokens| - 1] && init[1..] == tokens[..|tokens| - 1];
      var last := tokens[|tokens| - 1].record;
      assert t.record + "\n\n" + (Reassembled(tokens[..|tokens| - 1]) + last)
        == (t.record + "\n\n" + Reassembled(tokens[..|tokens| - 1])) + last;
    }
  }

  // ----- extractData -----

  datatype Data = NoData | Done | Payload(bytes: Bytes)

  predicate IsDone(data: Bytes) {
    TrimSpace(data) == DONE
  }

  /** The value of one record line; [] when it is not a data line or its value is blank. */
  function LineValue(line: Bytes): Bytes {
    var l := TrimRight(line, {'\r'});
    if HasPrefix(l, "data:") then TrimSpace(l[5..]) else []
  }

  /** The data gathered from `lines` on top of `acc`. A blank first value leaves `acc` nil, so it is
      forgotten; a later blank value still adds its newline. */
  function Gather(lines: seq<Bytes>, acc: Bytes): Bytes
    decreases |lines|
  {
    if lines == [] then acc
    else if !HasPrefix(TrimRight(lines[0], {'\r'}), "data:") then Gather(lines[1..], acc)
    else Gather(lines[1..], if acc == [] then LineValue(lines[0]) else acc + "\n" + LineValue(lines[0]))
  }

  function Classify(data: Bytes): Data {
    if data == [] then NoData
    else if IsDone(data) then Done
    else Payload(data)
  }

  function DataOf(record: Bytes): Data {
    Classify(Gather(Lines(record), []))
  }

  method ExtractData(record: Bytes) returns (r: Data)
    ensures r == DataOf(record)
  {
    var data: Bytes := [];
    var lines := Lines(record);
    var k := 0;
    while k < |lines|
      invariant 0 <= k <= |lines|
      invariant Gather(lines[k..], data) == Gather(lines, [])
    {
      var line := TrimRight(lines[k], {'\r'});
      assert lines[k..][1..] == lines[k + 1..];
      k := k + 1;
      if !HasPrefix(line, "data:") {
        continue;
      }
      var v := TrimSpace(line[5..]);
      if data == [] {
        data := v;
      } else {
        data := data + "\n" + v;
      }
    }
    assert lines[k..] == [];
    if data == [] {
      return NoData;
    }
    if TrimSpace(data) == DONE {
      return Done;
    }
    return Payload(data);
  }

  // ----- printing and parsing one payload -----

  predicate ValidPayload(p: Bytes) {
    p != [] && Trimmed(p) && Free(p, '\n') && p != DONE
  }

  function RecordOf(p: Bytes): Bytes {
    DATA + p
  }

  function Frame(p: Bytes): Bytes {
    DATA + p + "\n\n"
  }

  function Render(ps: seq<Bytes>): Bytes {
    if ps == [] then [] else Frame(ps[0]) + Render(ps[1..])
  }

  lemma {:induction false} RenderAppend(a: seq<Bytes>, b: seq<Bytes>)
    ensures Render(a + b) == Render(a) + Render(b)
  {
    if a == [] {
      assert a + b == b;
    } else {
      assert (a + b)[1..] == a[1..] + b;
      RenderAppend(a[1..], b);
    }
  }

  lemma TrimmedIsFixed(p: Bytes)
    requires Trimmed(p)
    ensures TrimSpace(p) == p
  {
  }

  /** A record "data: p" gives the payload p back exactly when p is valid: a newline, an outer blank,
      nothing at all or the terminator text never survives framing. */
  lemma FrameRoundTrip(p: Bytes)
    ensures DataOf(RecordOf(p)) == Payload(p) <==> ValidPayload(p)
  {
    var d := Gather(Lines(RecordOf(p)), []);
    if Free(p, '\n') {
      OneLineData(p);
    } else {
      ManyLinesShrink(p);
    }
    ClassifyLaw(d, p);
  }

  lemma ClassifyLaw(d: Bytes, p: Bytes)
    requires if Free(p, '\n') then d == TrimSpace(p) else |d| < |p|
    ensures Classify(d) == Payload(p) <==> ValidPayload(p)
  {
    if Trimmed(p) {
      TrimmedIsFixed(p);
    }
  }

  lemma OneLineData(p: Bytes)
    requires Free(p, '\n')
    ensures Gather(Lines(RecordOf(p)), []) == TrimSpace(p)
  {
    var r := RecordOf(p);
    OneLine(r);
    RecordValue(p);
    GatherOne(r);
  }

  lemma OneLine(r: Bytes)
    requires Free(r, '\n')
    ensures Lines(r) == [r]
  {
  }

  lemma GatherOne(r: Bytes)
    requires HasPrefix(TrimRight(r, {'\r'}), "data:")
    ensures Gather([r], []) == LineValue(r)
  {
    assert [r][1..] == [];
  }

  /** The value of a framed line is the trimmed payload: the '\r' stripped first would have been
      trimmed as white space anyway. */
  lemma RecordValue(p: Bytes)
    ensures HasPrefix(TrimRight(RecordOf(p), {'\r'}), "data:")
    ensures LineValue(RecordOf(p)) == TrimSpace(p)
  {
    var r := RecordOf(p);
    StripTail(r, 5);
    var l := TrimRight(r, {'\r'});
    assert l[..5] == r[..5] == "data:";
    assert r[5..] == " " + p;
    StripThenTrim(" " + p);
    TrimSkipsBlank(p);
  }

  lemma {:induction false} StripTail(r: Bytes, n: nat)
    requires n <= |r| && (forall k :: 0 <= k < n ==> r[k] != '\r')
    ensures |TrimRight(r, {'\r'})| >= n
    ensures TrimRight(r, {'\r'})[n..] == TrimRight(r[n..], {'\r'})
  {
    if r != [] && r[|r| - 1] == '\r' {
      var s := r[..|r| - 1];
      StripTail(s, n);
      assert r[n..][..|r[n..]| - 1] == s[n..];
    }
  }

  lemma StripThenTrim(s: Bytes)
    ensures TrimSpace(TrimRight(s, {'\r'})) == TrimSpace(s)
  {
    forall t: Bytes ensures TrimSpace(t + "\r") == TrimSpace(t) {
      TrimDropsReturn(t);
    }
    StripIgnored(TrimSpace, s);
  }

  /** Whatever ignores one last '\r' ignores them all. */
  lemma {:induction false} StripIgnored(f: Bytes -> Bytes, s: Bytes)
    requires forall t: Bytes :: f(t + "\r") == f(t)
    ensures f(TrimRight(s, {'\r'})) == f(s)
  {
    if s != [] && s[|s| - 1] == '\r' {
      var t := s[..|s| - 1];
      StripIgnored(f, t);
      assert s == t + "\r";
    }
  }

  lemma TrimDropsReturn(s: Bytes)
    ensures TrimSpace(s + "\r") == TrimSpace(s)
  {
    hide TrimLeft, TrimEnd;
    LeftDropsReturn(s);
    EndDropsReturn(TrimLeft(s));
  }

  lemma EndDropsReturn(t: Bytes)
    ensures TrimEnd(t + "\r") == TrimEnd(t)
  {
    assert SpaceAtEnd(t + "\r") == 1;
    assert (t + "\r")[..|t|] == t;
  }

  /** Trimming on the left keeps a last '\r', unless only white space was left of it. */
  lemma {:induction false} LeftDropsReturn(s: Bytes)
    ensures TrimLeft(s + "\r") == TrimLeft(s) + "\r" || (TrimLeft(s + "\r") == [] == TrimLeft(s))
    decreases |s|
  {
    var n := SpaceAtStart(s);
    if s == [] {
      assert (s + "\r")[1..] == [];
    } else if n > 0 {
      assert SpaceAtStart(s + "\r") == n;
      assert (s + "\r")[n..] == s[n..] + "\r";
      LeftDropsReturn(s[n..]);
    } else {
      assert SpaceAtStart(s + "\r") == 0;
    }
  }

  /** Line lengths with their newlines. */
  function Weight(lines: seq<Bytes>): nat {
    if lines == [] then 0 else |lines[0]| + 1 + Weight(lines[1..])
  }

  lemma {:induction false} LinesWeight(s: Bytes)
    ensures Weight(Lines(s)) == |s| + 1
    decreases |s|
  {
    var i := IndexByte(s, '\n');
    if i >= 0 {
      LinesWeight(s[i + 1..]);
      assert Lines(s)[1..] == Lines(s[i + 1..]);
    }
  }

  lemma {:induction false} GatherShrinks(lines: seq<Bytes>, acc: Bytes)
    ensures |Gather(lines, acc)| <= |acc| + Weight(lines)
    ensures lines != [] ==> |Gather(lines, acc)| < |acc| + Weight(lines)
    decreases |lines|
  {
    if lines != [] {
      var v := LineValue(lines[0]);
      if HasPrefix(TrimRight(lines[0], {'\r'}), "data:") {
        GatherShrinks(lines[1..], if acc == [] then v else acc + "\n" + v);
      } else {
        GatherShrinks(lines[1..], acc);
      }
    }
  }

  lemma ManyLinesShrink(p: Bytes)
    requires !Free(p, '\n')
    ensures |Gather(Lines(RecordOf(p)), [])| < |p|
  {
    hide TrimSpace, TrimRight, Lines, Gather, Weight, IndexByte, LineValue;
    var i := IndexByte(p, '\n');
    var head, tail := p[..i], p[i + 1..];
    assert RecordOf(p) == RecordOf(head) + "\n" + tail;
    LinesCons(RecordOf(head), tail);
    RecordValue(head);
    GatherFirst(RecordOf(head), Lines(tail));
    LinesWeight(tail);
    GatherShrinks(Lines(tail), TrimSpace(head));
  }

  lemma LinesCons(head: Bytes, tail: Bytes)
    requires Free(head, '\n')
    ensures Lines(head + "\n" + tail) == [head] + Lines(tail)
  {
    var r := head + "\n" + tail;
    var i := IndexByte(r, '\n');
    assert r[|head|] == '\n' && forall k :: 0 <= k < |head| ==> r[k] == head[k];
    assert i == |head|;
    assert r[..i] == head && r[i + 1..] == tail;
  }

  lemma GatherFirst(line: Bytes, more: seq<Bytes>)
    requires HasPrefix(TrimRight(line, {'\r'}), "data:")
    ensures Gather([line] + more, []) == Gather(more, LineValue(line))
  {
    assert ([line] + more)[1..] == more;
  }
}

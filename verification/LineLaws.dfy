/** What becomes of line structure: CRLF line ends never end a record, and a payload gathered from
    several data lines does not survive being framed again. */
module LineLaws {
  import opened Wrappers
  import opened Bytes
  import opened Sse
  import opened Upstream
  import opened RelayLaws
  import V = EventLaws

  /** One line of data: a valid payload, or the terminator text. */
  predicate Plain(q: Bytes) {
    q != [] && Trimmed(q) && Free(q, '\n')
  }

  predicate AllPlain(qs: seq<Bytes>) {
    forall k :: 0 <= k < |qs| ==> Plain(qs[k])
  }

  /** The lines with newlines between them. */
  function Join(qs: seq<Bytes>): Bytes {
    if qs == [] then []
    else if |qs| == 1 then qs[0]
    else qs[0] + "\n" + Join(qs[1..])
  }

  /** Records ended the CRLF way. */
  function CrlfRender(qs: seq<Bytes>): Bytes {
    if qs == [] then [] else RecordOf(qs[0]) + "\r\n\r\n" + CrlfRender(qs[1..])
  }

  /** One record with a data line for each of `qs`. */
  function ManyLines(qs: seq<Bytes>): Bytes {
    if qs == [] then []
    else if |qs| == 1 then RecordOf(qs[0])
    else RecordOf(qs[0]) + "\n" + ManyLines(qs[1..])
  }

  // ----- gathering the lines -----

  lemma TailPlain(qs: seq<Bytes>)
    requires AllPlain(qs) && qs != []
    ensures Plain(qs[0]) && AllPlain(qs[1..])
  {
  }

  /** `data` with one more line. */
  function Add(data: Bytes, q: Bytes): Bytes {
    if data == [] then q else data + "\n" + q
  }

  /** A data line, with or without a '\r', adds its text. */
  lemma GatherLine(q: Bytes, end: Bytes, more: seq<Bytes>, acc: Bytes)
    requires Plain(q) && (end == "" || end == "\r")
    ensures Gather([RecordOf(q) + end] + more, acc) == Gather(more, Add(acc, q))
  {
    hide TrimSpace;
    var r := RecordOf(q);
    var lines := [r + end] + more;
    assert lines[1..] == more;
    RecordValue(q);
    TrimmedIsFixed(q);
    assert r + "" == r;
    assert end == "\r" ==> (r + end)[..|r|] == r;
  }

  lemma GatherBlank(end: Bytes, more: seq<Bytes>, acc: Bytes)
    requires end == "" || end == "\r"
    ensures Gather([end] + more, acc) == Gather(more, acc)
  {
    assert ([end] + more)[1..] == more;
    assert TrimRight("", {'\r'}) == "";
    assert "\r"[..0] == "" && TrimRight("\r", {'\r'}) == TrimRight("", {'\r'});
  }

  lemma JoinAdds(q: Bytes, qs: seq<Bytes>)
    requires qs != []
    ensures Join([q] + qs) == q + "\n" + Join(qs)
  {
    assert ([q] + qs)[1..] == qs;
  }

  /** `acc` with all lines of `qs`. */
  function AddAll(acc: Bytes, qs: seq<Bytes>): Bytes {
    if qs == [] then acc else if acc == [] then Join(qs) else acc + "\n" + Join(qs)
  }

  lemma AddAllCons(acc: Bytes, qs: seq<Bytes>)
    requires qs != [] && qs[0] != []
    ensures AddAll(Add(acc, qs[0]), qs[1..]) == AddAll(acc, qs)
  {
    hide Join;
    if |qs| > 1 {
      JoinAdds(qs[0], qs[1..]);
      assert qs == [qs[0]] + qs[1..];
      assert acc + "\n" + (qs[0] + "\n" + Join(qs[1..])) == acc + "\n" + qs[0] + "\n" + Join(qs[1..]);
    } else {
      JoinOne(qs[0]);
      assert qs == [qs[0]];
    }
  }

  lemma JoinOne(q: Bytes)
    ensures Join([q]) == q
  {
  }

  lemma {:induction false} GatherCrlf(qs: seq<Bytes>, acc: Bytes)
    requires AllPlain(qs)
    ensures Gather(Lines(CrlfRender(qs)), acc) == AddAll(acc, qs)
    decreases |qs|
  {
    hide Gather, Lines, TrimSpace, AddAll, Trimmed;
    if qs == [] {
      NoLines(acc);
    } else {
      TailPlain(qs);
      var q, rest := qs[0], CrlfRender(qs[1..]);
      var head := RecordOf(q) + "\r";
      assert CrlfRender(qs) == head + "\n" + ("\r" + "\n" + rest);
      LinesCons(head, "\r" + "\n" + rest);
      LinesCons("\r", rest);
      GatherLine(q, "\r", ["\r"] + Lines(rest), acc);
      GatherBlank("\r", Lines(rest), Add(acc, q));
      GatherCrlf(qs[1..], Add(acc, q));
      AddAllCons(acc, qs);
    }
  }

  lemma NoLines(acc: Bytes)
    ensures Gather(Lines([]), acc) == acc == AddAll(acc, [])
  {
    assert Lines([]) == [""] == [""] + [];
    GatherBlank("", [], acc);
  }

  lemma {:induction false} GatherMany(qs: seq<Bytes>, acc: Bytes)
    requires AllPlain(qs) && qs != []
    ensures Gather(Lines(ManyLines(qs)), acc) == AddAll(acc, qs)
    decreases |qs|
  {
    hide Gather, Lines, TrimSpace, AddAll, Trimmed;
    TailPlain(qs);
    var q := qs[0];
    AddAllCons(acc, qs);
    assert RecordOf(q) + "" == RecordOf(q);
    if |qs| == 1 {
      OneLine(RecordOf(q));
      assert [RecordOf(q)] == [RecordOf(q) + ""] + [];
      GatherLine(q, "", [], acc);
      assert qs[1..] == [];
      GatherNone(Add(acc, q));
    } else {
      LinesCons(RecordOf(q), ManyLines(qs[1..]));
      GatherLine(q, "", Lines(ManyLines(qs[1..])), acc);
      GatherMany(qs[1..], Add(acc, q));
    }
  }

  lemma GatherNone(acc: Bytes)
    ensures Gather([], acc) == acc == AddAll(acc, [])
  {
  }

  // ----- what the joined lines are -----

  lemma SeamTrimmed(a: Bytes, b: Bytes)
    requires a != [] && b != [] && Trimmed(a) && Trimmed(b)
    ensures Trimmed(a + "\n" + b)
  {
    hide SpaceAtStart, SpaceAtEnd;
    SeamStart(a, "\n" + b);
    SeamEnd(a + "\n", b);
    assert a + ("\n" + b) == a + "\n" + b;
  }

  lemma SeamStart(a: Bytes, b: Bytes)
    requires a != [] && SpaceAtStart(a) == 0 && b != [] && b[0] == '\n'
    ensures SpaceAtStart(a + b) == 0
  {
  }

  lemma SeamEnd(a: Bytes, b: Bytes)
    requires b != [] && SpaceAtEnd(b) == 0 && a != [] && a[|a| - 1] == '\n'
    ensures SpaceAtEnd(a + b) == 0
  {
    var s, n := a + b, |a| + |b|;
    assert s[n - 1] == b[|b| - 1];
    assert |b| > 1 ==> s[n - 2] == b[|b| - 2];
    assert |b| > 2 ==> s[n - 3] == b[|b| - 3];
    assert s[|a| - 1] == '\n';
  }

  lemma {:induction false} JoinLaw(qs: seq<Bytes>)
    requires AllPlain(qs) && qs != []
    ensures Join(qs) != [] && Trimmed(Join(qs))
    ensures Free(Join(qs), '\n') <==> |qs| == 1
  {
    hide Trimmed;
    TailPlain(qs);
    if |qs| > 1 {
      JoinLaw(qs[1..]);
      SeamTrimmed(qs[0], Join(qs[1..]));
      assert Join(qs)[|qs[0]|] == '\n';
    }
  }

  /** The joined lines are data, but for a lone terminator. */
  lemma JoinClassified(qs: seq<Bytes>)
    requires AllPlain(qs) && qs != []
    ensures Classify(Join(qs)) == if qs == [DONE] then Done else Payload(Join(qs))
  {
    hide TrimSpace, Trimmed;
    JoinLaw(qs);
    TrimmedIsFixed(Join(qs));
    if |qs| == 1 {
      assert qs == [qs[0]];
    } else {
      assert Free(DONE, '\n');
    }
  }

  // ----- CRLF -----

  lemma CrlfHasNoBlank(qs: seq<Bytes>)
    requires AllPlain(qs)
    ensures IndexBlank(CrlfRender(qs)) < 0
  {
    var s := CrlfRender(qs);
    forall j ensures !BlankAt(s, j) {
      NotBlankAt(qs, j);
    }
    assert !BlankAt(s, IndexBlank(s));
  }

  lemma {:induction false} NotBlankAt(qs: seq<Bytes>, j: int)
    requires AllPlain(qs)
    ensures !BlankAt(CrlfRender(qs), j)
    decreases |qs|
  {
    hide Trimmed, BlankAt, CrlfRender;
    if qs != [] {
      TailPlain(qs);
      var head, tail := RecordOf(qs[0]), CrlfRender(qs[1..]);
      NotBlankAt(qs[1..], j - |head| - 4);
      CrlfStart(qs[1..]);
      RecordIsFree(qs[0]);
      NoBlankBefore(head, tail, j);
      CrlfFirst(qs);
    } else {
      NothingBlank(qs, j);
    }
  }

  lemma NothingBlank(qs: seq<Bytes>, j: int)
    requires qs == []
    ensures !BlankAt(CrlfRender(qs), j)
  {
  }

  lemma CrlfFirst(qs: seq<Bytes>)
    requires qs != []
    ensures CrlfRender(qs) == RecordOf(qs[0]) + "\r\n\r\n" + CrlfRender(qs[1..])
  {
  }

  lemma RecordIsFree(q: Bytes)
    requires Free(q, '\n')
    ensures Free(RecordOf(q), '\n')
  {
    var r := RecordOf(q);
    assert r[..6] == DATA && r[6..] == q;
    forall k | 0 <= k < |r| ensures r[k] != '\n' {
      assert if k < 6 then r[k] == DATA[k] else r[k] == q[k - 6];
    }
  }

  lemma NoBlankBefore(head: Bytes, tail: Bytes, j: int)
    requires Free(head, '\n') && (tail == [] || tail[0] != '\n')
    requires !BlankAt(tail, j - |head| - 4)
    ensures !BlankAt(head + "\r\n\r\n" + tail, j)
  {
    var s, n := head + "\r\n\r\n" + tail, |head| + 4;
    assert s[n - 4] == '\r' && s[n - 3] == '\n' && s[n - 2] == '\r' && s[n - 1] == '\n';
    if 0 <= j < |head| {
      assert s[j] == head[j];
    } else if n - 1 <= j < |s| - 1 {
      assert s[j + 1] == tail[j + 1 - n];
      assert j >= n ==> s[j] == tail[j - n];
    }
  }

  lemma CrlfStart(qs: seq<Bytes>)
    ensures CrlfRender(qs) == [] || CrlfRender(qs)[0] == 'd'
  {
    assert DATA[0] == 'd';
  }

  /** CRLF-separated records are one record: the scan gives a single token, whatever their number. */
  lemma CrlfIsOneToken(qs: seq<Bytes>, broken: bool, limit: nat)
    requires AllPlain(qs)
    ensures var s := CrlfRender(qs);
      Scan(s, broken, limit) ==
        if |s| >= limit then Scanned([], true)
        else if qs == [] then Scanned([], broken)
        else Scanned([Token(s, broken)], broken)
  {
    CrlfHasNoBlank(qs);
  }

  /** What a live relay is given of CRLF-separated records: all of them joined into one payload, or
      nothing when they are more than the scanner takes. */
  lemma CrlfDelivered(ctx: Ctx, qs: seq<Bytes>, broken: bool)
    requires ctx.Live() && AllPlain(qs)
    ensures var s := CrlfRender(qs);
      Delivered(ctx, Scan(s, broken, MAX_SSE_TOKEN).tokens) ==
        if |s| >= MAX_SSE_TOKEN || qs == [] || qs == [DONE] then [] else [Join(qs)]
  {
    hide Scan, Gather, Lines, Join, Classify, CrlfRender;
    var s := CrlfRender(qs);
    CrlfIsOneToken(qs, broken, MAX_SSE_TOKEN);
    if |s| < MAX_SSE_TOKEN && qs != [] {
      GatherCrlf(qs, []);
      JoinClassified(qs);
      var tokens := [Token(s, broken)];
      assert tokens[1..] == [];
      assert DataOf(s) == Classify(Join(qs));
    }
  }

  /** Payloads separated by CRLF blank lines are delivered as they are exactly when there is at most one
      and it fits; with a terminator record behind them, which joins them, only when there is none. */
  lemma CrlfIsNotSplit(ctx: Ctx, ps: seq<Bytes>, broken: bool)
    requires ctx.Live() && forall k :: 0 <= k < |ps| ==> ValidPayload(ps[k])
    ensures Delivered(ctx, Scan(CrlfRender(ps), broken, MAX_SSE_TOKEN).tokens) == ps
       <==> ps == [] || (|ps| == 1 && |CrlfRender(ps)| < MAX_SSE_TOKEN)
    ensures Delivered(ctx, Scan(CrlfRender(ps + [DONE]), broken, MAX_SSE_TOKEN).tokens) == ps <==> ps == []
  {
    hide Scan, Delivered, Join, CrlfRender, Trimmed;
    var all := ps + [DONE];
    DoneIsPlain();
    CrlfDelivered(ctx, ps, broken);
    CrlfDelivered(ctx, all, broken);
    if |ps| == 1 {
      JoinOne(ps[0]);
      assert ps == [ps[0]];
    }
    if ps != [] {
      JoinLaw(all);
      assert all[0] == ps[0];
    }
  }

  lemma DoneIsPlain()
    ensures Plain(DONE)
  {
    assert DONE[0] == '[' && DONE[5] == ']' && |DONE| == 6;
  }

  // ----- several data lines -----

  /** A record of several data lines has them joined as its payload, and framing that payload again gives
      it back exactly when there was one line. */
  lemma NewlineIsLost(qs: seq<Bytes>)
    requires AllPlain(qs) && qs != []
    ensures DataOf(ManyLines(qs)) == if qs == [DONE] then Done else Payload(Join(qs))
    ensures DataOf(RecordOf(Join(qs))) == Payload(Join(qs)) <==> |qs| == 1 && qs[0] != DONE
  {
    hide Gather, Lines, Classify, Trimmed, ManyLines;
    GatherMany(qs, []);
    JoinClassified(qs);
    JoinLaw(qs);
    FrameRoundTrip(Join(qs));
    assert DataOf(ManyLines(qs)) == Classify(Join(qs));
  }

  // ----- records of any lines -----

  /** A line of a record and the returns behind it; event names, ids and comments are `V.Other`. */
  datatype Field = Field(line: V.Line, trail: Bytes)

  predicate ProperField(f: Field) {
    && (forall k :: 0 <= k < |f.trail| ==> f.trail[k] == '\r')
    && match f.line
      case Data(value) => Free(value, '\n')
      case Other(text) => Free(text, '\n') && !("data:" <= text)
  }

  predicate ProperFields(fs: seq<Field>) {
    forall k :: 0 <= k < |fs| ==> ProperField(fs[k])
  }

  function FieldText(f: Field): Bytes {
    V.LineText(f.line) + f.trail
  }

  /** A record: its lines with newlines between them. */
  function FieldsText(fs: seq<Field>): Bytes {
    if fs == [] then []
    else if |fs| == 1 then FieldText(fs[0])
    else FieldText(fs[0]) + "\n" + FieldsText(fs[1..])
  }

  /** The trimmed values of the data lines. */
  function Values(fs: seq<Field>): seq<Bytes> {
    if fs == [] then []
    else (if fs[0].line.Data? then [TrimSpace(fs[0].line.value)] else []) + Values(fs[1..])
  }

  /** Blank values are forgotten up to the first that is not. */
  function FromFirst(vs: seq<Bytes>): seq<Bytes> {
    if vs == [] || vs[0] != [] then vs else FromFirst(vs[1..])
  }

  /** What `acc` and the values make. */
  function Gathered(acc: Bytes, vs: seq<Bytes>): Bytes {
    if acc == [] then Join(FromFirst(vs)) else if vs == [] then acc else acc + "\n" + Join(vs)
  }

  lemma GatherField(f: Field, more: seq<Bytes>, acc: Bytes)
    requires ProperField(f)
    ensures Gather([FieldText(f)] + more, acc)
         == if f.line.Data? then Gather(more, Add(acc, TrimSpace(f.line.value))) else Gather(more, acc)
  {
    hide TrimSpace, TrimRight, LineValue, FieldText, ProperField;
    var lines := [FieldText(f)] + more;
    assert lines[1..] == more;
    FieldValue(f);
  }

  lemma FieldValue(f: Field)
    requires ProperField(f)
    ensures HasPrefix(TrimRight(FieldText(f), {'\r'}), "data:") <==> f.line.Data?
    ensures f.line.Data? ==> LineValue(FieldText(f)) == TrimSpace(f.line.value)
  {
    hide TrimSpace, TrimRight;
    var s := V.LineText(f.line);
    TrailStripped(s, f.trail);
    match f.line
    case Data(value) =>
      assert s[5..] == value;
      StripTail(s, 5);
      var line := TrimRight(s, {'\r'});
      assert "data:" <= line && line[5..] == TrimRight(value, {'\r'});
      StripThenTrim(value);
    case Other(text) =>
      StripKeepsPrefix(text);
  }

  lemma {:induction false} TrailStripped(s: Bytes, trail: Bytes)
    requires forall k :: 0 <= k < |trail| ==> trail[k] == '\r'
    ensures TrimRight(s + trail, {'\r'}) == TrimRight(s, {'\r'})
    decreases |trail|
  {
    if trail == [] {
      assert s + trail == s;
    } else {
      var t := s + trail;
      assert t[..|t| - 1] == s + trail[..|trail| - 1];
      TrailStripped(s, trail[..|trail| - 1]);
    }
  }

  lemma StripKeepsPrefix(text: Bytes)
    requires !("data:" <= text)
    ensures !("data:" <= TrimRight(text, {'\r'}))
  {
  }

  lemma GatheredStep(acc: Bytes, v: Bytes, vs: seq<Bytes>)
    ensures Gathered(Add(acc, v), vs) == Gathered(acc, [v] + vs)
  {
    hide Join, FromFirst;
    var all := [v] + vs;
    assert all[1..] == vs;
    FirstOf(all);
    if vs == [] {
      assert all == [v];
      JoinOne(v);
    } else {
      JoinAdds(v, vs);
      assert acc + "\n" + (v + "\n" + Join(vs)) == acc + "\n" + v + "\n" + Join(vs);
    }
    FirstOfNone();
    JoinNone();
  }

  lemma FirstOf(vs: seq<Bytes>)
    requires vs != []
    ensures FromFirst(vs) == if vs[0] != [] then vs else FromFirst(vs[1..])
  {
  }

  lemma FirstOfNone()
    ensures FromFirst([]) == []
  {
  }

  lemma JoinNone()
    ensures Join([]) == []
  {
  }

  lemma {:induction false} GatherFields(fs: seq<Field>, acc: Bytes)
    requires ProperFields(fs) && fs != []
    ensures Gather(Lines(FieldsText(fs)), acc) == Gathered(acc, Values(fs))
    decreases |fs|
  {
    hide Gather, Lines, TrimSpace, Gathered, FieldText, ProperField, Add;
    var f := fs[0];
    FieldIsFree(f);
    NothingGathered(acc);
    if |fs| == 1 {
      OneLine(FieldText(f));
      assert [FieldText(f)] == [FieldText(f)] + [];
      GatherField(f, [], acc);
      GatherNone(acc);
      assert fs[1..] == [] && Values(fs[1..]) == [];
      if f.line.Data? {
        var v := TrimSpace(f.line.value);
        GatherNone(Add(acc, v));
        NothingGathered(Add(acc, v));
        GatheredStep(acc, v, []);
        assert Values(fs) == [v] + [];
      } else {
        assert Values(fs) == [] + [];
      }
    } else {
      LinesCons(FieldText(f), FieldsText(fs[1..]));
      GatherField(f, Lines(FieldsText(fs[1..])), acc);
      if f.line.Data? {
        var v := TrimSpace(f.line.value);
        GatherFields(fs[1..], Add(acc, v));
        GatheredStep(acc, v, Values(fs[1..]));
      } else {
        GatherFields(fs[1..], acc);
        assert Values(fs) == Values(fs[1..]);
      }
    }
  }

  lemma NothingGathered(acc: Bytes)
    ensures Gathered(acc, []) == acc
  {
  }

  lemma FieldIsFree(f: Field)
    requires ProperField(f)
    ensures Free(FieldText(f), '\n')
  {
    var s := V.LineText(f.line);
    assert f.line.Data? ==> forall k :: 0 <= k < 5 ==> s[k] != '\n';
    assert f.line.Data? ==> s[5..] == f.line.value;
    assert Free(s, '\n');
    forall k | 0 <= k < |FieldText(f)| ensures FieldText(f)[k] != '\n' {
      assert if k < |s| then FieldText(f)[k] == s[k] else FieldText(f)[k] == f.trail[k - |s|];
    }
  }

  /** What a relay takes from a record of any lines: the values of its data lines, trimmed, from the first
      that is not blank on, joined by newlines; other lines do not count. */
  lemma RecordIs(fs: seq<Field>)
    requires ProperFields(fs) && fs != []
    ensures Sse.DataOf(FieldsText(fs)) == Classify(Join(FromFirst(Values(fs))))
  {
    hide Gather, Lines, Classify, Join, FromFirst, Values, FieldsText;
    GatherFields(fs, []);
  }
}

/** Which requests come back unchanged from the way through the canonical form. */
module RequestLaws {
  import opened Bytes
  import opened Requests
  import Sse

  // ----- one block -----

  predicate Nice(b: Block) {
    match b
    case Text(text) => text != ""
    case Image(kind, mediaType, data, url) =>
      if kind == "base64" then mediaType != "" && Free(mediaType, ',') && data != "" && url == ""
      else kind == "url" && mediaType == "" && data == "" && url != "" && !HasPrefix(url, "data:")
    case _ => false
  }

  /** A data URL gives back its parts when the media type is not empty and has no comma. */
  lemma DataURLRoundTrip(mediaType: string, data: string)
    ensures ParseDataURL(DataURL(mediaType, data)) == Data(mediaType, data)
       <==> mediaType != "" && Free(mediaType, ',')
  {
    var rest := mediaType + BASE64 + "," + data;
    assert DataURL(mediaType, data)[5..] == rest;
    if Free(mediaType, ',') {
      var i := |mediaType| + 7;
      assert rest[..i] == mediaType + BASE64;
      assert BASE64 == [';', 'b', 'a', 's', 'e', '6', '4'];
      IndexByteIs(rest, ',', i);
      assert (mediaType + BASE64)[|mediaType|..] == BASE64;
      assert rest[i + 1..] == data;
    } else {
      var i := IndexByte(rest, ',');
      var k :| 0 <= k < |mediaType| && mediaType[k] == ',';
      assert rest[k] == ',';
      assert |rest[i + 1..]| > |data|;
    }
  }

  /** A block survives exactly when it is nice. */
  lemma BlockRoundTrip(b: Block)
    ensures OutPart(InPart(b)) == [b] <==> Nice(b)
  {
    hide ParseDataURL, IndexByte;
    match b
    case Image(kind, mediaType, data, url) =>
      if kind == "base64" && data != "" {
        assert HasPrefix(DataURL(mediaType, data), "data:");
        DataURLRoundTrip(mediaType, data);
        HasComma(mediaType, data);
      } else {
        assert kind == "base64" ==> kind[0] == 'b';
        assert "url"[0] == 'u';
      }
    case _ =>
  }

  lemma HasComma(mediaType: string, data: string)
    ensures ParseDataURL(DataURL(mediaType, data)).Data?
  {
    var rest := DataURL(mediaType, data)[5..];
    assert rest[|mediaType| + 7] == ',';
  }

  // ----- one message -----

  predicate NiceContent(c: Content<Block>) {
    match c
    case Str(_) => true
    case List(blocks) => blocks != [] && forall k :: 0 <= k < |blocks| ==> Nice(blocks[k])
    case Neither => false
  }

  lemma OneAtMost(p: Part)
    ensures |OutPart(p)| <= 1
  {
  }

  lemma {:induction false} BlocksRoundTrip(blocks: seq<Block>)
    ensures |OutParts(InParts(blocks))| <= |blocks|
    ensures OutParts(InParts(blocks)) == blocks <==> forall k :: 0 <= k < |blocks| ==> Nice(blocks[k])
  {
    hide OutPart, InPart, Nice;
    if blocks != [] {
      var init, last := blocks[..|blocks| - 1], blocks[|blocks| - 1];
      BlocksRoundTrip(init);
      BlockRoundTrip(last);
      OneAtMost(InPart(last));
      assert InParts(blocks)[..|blocks| - 1] == InParts(init);
      assert blocks == init + [last];
      var a, o := OutParts(InParts(init)), OutPart(InPart(last));
      assert OutParts(InParts(blocks)) == a + o;
      if a + o == blocks {
        assert |a| == |init| && |o| == 1;
        assert a == (a + o)[..|init|];
        assert o == (a + o)[|init|..];
      }
    }
  }

  lemma ContentRoundTrip(c: Content<Block>)
    ensures OutContent(InContent(c)) == c <==> NiceContent(c)
  {
    hide Nice, OutPart, InPart;
    if c.List? {
      BlocksRoundTrip(c.items);
      assert c.items == [] ==> InParts(c.items) == [];
    }
  }

  // ----- a whole request -----

  predicate NiceMessage(m: Message<Block>) {
    m.role != "system" && NiceContent(m.content)
  }

  lemma {:induction false} MessagesRoundTrip(ms: seq<Message<Block>>)
    ensures |OutMessages(InMessages(ms))| <= |ms|
    ensures OutMessages(InMessages(ms)) == ms <==> forall k :: 0 <= k < |ms| ==> NiceMessage(ms[k])
  {
    hide NiceContent, OutContent, InContent;
    if ms != [] {
      var init, last := ms[..|ms| - 1], ms[|ms| - 1];
      MessagesRoundTrip(init);
      ContentRoundTrip(last.content);
      assert InMessages(ms)[..|ms| - 1] == InMessages(init);
      assert ms == init + [last];
      var a := OutMessages(InMessages(init));
      if last.role != "system" {
        var o := Message(last.role, OutContent(InContent(last.content)));
        assert OutMessages(InMessages(ms)) == a + [o];
        if a + [o] == ms {
          assert a == (a + [o])[..|init|];
        }
      }
    }
  }

  lemma {:induction false} OutAppend(a: Canonical, b: Canonical)
    ensures OutMessages(a + b) == OutMessages(a) + OutMessages(b)
  {
    hide OutContent;
    if b == [] {
      assert a + b == a;
    } else {
      var init, last := b[..|b| - 1], b[|b| - 1];
      OutAppend(a, init);
      assert (a + b)[..|a + b| - 1] == a + init;
    }
  }

  /** The message list survives exactly when every message is nice, whatever the system field. */
  lemma RequestRoundTrip(r: AnthropicRequest)
    ensures OutMessages(Inbound(r)) == r.messages <==> forall k :: 0 <= k < |r.messages| ==> NiceMessage(r.messages[k])
  {
    hide FlatSystem, InMessages, NiceMessage;
    var head := SystemMessage(FlatSystem(r.system));
    OutAppend(head, InMessages(r.messages));
    assert OutMessages(head) == [] by {
      if head != [] {
        assert head[..0] == [];
      }
    }
    MessagesRoundTrip(r.messages);
  }

  lemma {:induction false} SystemAppend(a: Canonical, ms: seq<Message<Block>>)
    requires forall k :: 0 <= k < |ms| ==> ms[k].role != "system"
    ensures OutSystem(a + InMessages(ms)) == OutSystem(a)
  {
    hide TextOf;
    if ms == [] {
      assert a + InMessages(ms) == a;
    } else {
      var init := ms[..|ms| - 1];
      SystemAppend(a, init);
      var all := a + InMessages(ms);
      assert all[..|all| - 1] == a + InMessages(init);
    }
  }

  /** Without system-role messages the outbound system field is the flattened inbound one. */
  lemma SystemSurvives(r: AnthropicRequest)
    requires forall k :: 0 <= k < |r.messages| ==> r.messages[k].role != "system"
    ensures OutSystem(Inbound(r)) == FlatSystem(r.system)
  {
    hide FlatSystem, InMessages;
    var head := SystemMessage(FlatSystem(r.system));
    SystemAppend(head, r.messages);
    if head != [] {
      assert head[..0] == [];
    }
  }

  // ----- the flattened texts -----

  function NonEmpty(texts: seq<string>): seq<string> {
    if texts == [] then [] else (if texts[0] == "" then [] else [texts[0]]) + NonEmpty(texts[1..])
  }

  lemma {:induction false} NonEmptySnoc(texts: seq<string>, t: string)
    ensures NonEmpty(texts + [t]) == NonEmpty(texts) + if t == "" then [] else [t]
  {
    var all := texts + [t];
    if texts == [] {
      assert all == [t] && all[1..] == [];
    } else {
      NonEmptySnoc(texts[1..], t);
      assert all[1..] == texts[1..] + [t] && all[0] == texts[0];
      var first, rest := if texts[0] == "" then [] else [texts[0]], NonEmpty(texts[1..]);
      var last := if t == "" then [] else [t];
      assert first + (rest + last) == (first + rest) + last;
    }
  }

  lemma {:induction false} LinesSnoc(a: Bytes, t: Bytes)
    requires Free(t, '\n')
    ensures Lines(a + "\n" + t) == Lines(a) + [t]
    decreases |a|
  {
    hide IndexByte;
    var i := IndexByte(a, '\n');
    var s := a + "\n" + t;
    if i < 0 {
      Sse.LinesCons(a, t);
      Sse.OneLine(t);
      Sse.OneLine(a);
    } else {
      var head, tail := a[..i], a[i + 1..];
      assert a == head + "\n" + tail;
      assert Free(head, '\n');
      assert s == head + "\n" + (tail + "\n" + t);
      Sse.LinesCons(head, tail + "\n" + t);
      Sse.LinesCons(head, tail);
      LinesSnoc(tail, t);
    }
  }

  /** Flattened system texts are read back line by line: the non-empty ones, in order. */
  lemma {:induction false} FlatIsLines(texts: seq<string>)
    requires forall k :: 0 <= k < |texts| ==> Free(texts[k], '\n')
    ensures (FlatLines(texts) == "" <==> NonEmpty(texts) == [])
    ensures FlatLines(texts) != "" ==> Lines(FlatLines(texts)) == NonEmpty(texts)
  {
    hide Lines;
    if texts != [] {
      var init, last := texts[..|texts| - 1], texts[|texts| - 1];
      FlatIsLines(init);
      NonEmptySnoc(init, last);
      assert texts == init + [last];
      if last != "" {
        Sse.OneLine(last);
        LinesSnoc(FlatLines(init), last);
      }
    }
  }

  /** The plain text of content: a string as it is, of a list the non-empty texts, one a line. */
  lemma TextIsLines(c: Content<Part>)
    ensures c.Str? ==> TextOf(c) == c.s
    ensures c.Neither? ==> TextOf(c) == ""
    ensures c.List? && (forall k :: 0 <= k < |c.items| ==> c.items[k].Part? ==> Free(c.items[k].text, '\n')) ==>
      var texts := seq(|c.items|, k requires 0 <= k < |c.items| => if c.items[k].Part? then c.items[k].text else "");
      if NonEmpty(texts) == [] then TextOf(c) == "" else Lines(TextOf(c)) == NonEmpty(texts)
  {
    hide Lines, FlatLines, NonEmpty;
    if c.List? && (forall k :: 0 <= k < |c.items| ==> c.items[k].Part? ==> Free(c.items[k].text, '\n')) {
      var texts := seq(|c.items|, k requires 0 <= k < |c.items| => if c.items[k].Part? then c.items[k].text else "");
      assert texts == PartTexts(c.items);
      FlatIsLines(texts);
    }
  }

  // ----- system messages on the way out -----

  /** The texts of the system messages, in order. */
  function SystemTexts(ms: Canonical): seq<string> {
    if ms == [] then []
    else (if ms[0].role == "system" then [TextOf(ms[0].content)] else []) + SystemTexts(ms[1..])
  }

  /** The texts from the first that is not empty on, a blank line between any two. */
  function Paragraphs(texts: seq<string>): string {
    if texts == [] then ""
    else if texts[0] == "" then Paragraphs(texts[1..])
    else Spread(texts)
  }

  function Spread(texts: seq<string>): string {
    if texts == [] then "" else if |texts| == 1 then texts[0] else texts[0] + "\n\n" + Spread(texts[1..])
  }

  lemma {:induction false} SpreadSnoc(texts: seq<string>, t: string)
    requires texts != []
    ensures Spread(texts + [t]) == Spread(texts) + "\n\n" + t
  {
    var all := texts + [t];
    assert all[1..] == texts[1..] + [t];
    if |texts| == 1 {
      assert all[1..] == [t];
      assert Spread(all) == texts[0] + "\n\n" + Spread([t]);
    } else {
      SpreadSnoc(texts[1..], t);
      assert texts[0] + "\n\n" + (Spread(texts[1..]) + "\n\n" + t) == texts[0] + "\n\n" + Spread(texts[1..]) + "\n\n" + t;
    }
  }

  lemma {:induction false} ParagraphsSnoc(texts: seq<string>, t: string)
    ensures Paragraphs(texts + [t]) == if Paragraphs(texts) == "" then t else Paragraphs(texts) + "\n\n" + t
  {
    if texts == [] {
      assert texts + [t] == [t] && [t][1..] == [];
    } else {
      assert (texts + [t])[1..] == texts[1..] + [t];
      if texts[0] == "" {
        ParagraphsSnoc(texts[1..], t);
      } else {
        SpreadSnoc(texts, t);
      }
    }
  }

  lemma {:induction false} SystemTextsSnoc(ms: Canonical, m: Message<Part>)
    ensures SystemTexts(ms + [m]) == SystemTexts(ms) + if m.role == "system" then [TextOf(m.content)] else []
  {
    hide TextOf;
    if ms == [] {
      assert ms + [m] == [m] && [m][1..] == [];
    } else {
      assert (ms + [m])[1..] == ms[1..] + [m];
      SystemTextsSnoc(ms[1..], m);
    }
  }

  /** The outbound system field holds the texts of all system messages, blank lines between them. */
  lemma {:induction false} SystemIsParagraphs(ms: Canonical)
    ensures OutSystem(ms) == Paragraphs(SystemTexts(ms))
  {
    hide TextOf, Paragraphs;
    NoParagraphs();
    if ms != [] {
      var init, m := ms[..|ms| - 1], ms[|ms| - 1];
      SystemIsParagraphs(init);
      SystemTextsSnoc(init, m);
      assert ms == init + [m] && SystemTexts(init) + [] == SystemTexts(init);
      ParagraphsSnoc(SystemTexts(init), TextOf(m.content));
    }
  }

  lemma NoParagraphs()
    ensures Paragraphs([]) == ""
  {
  }

  // ----- the canonical form -----

  /** What each kind of block is on the canonical side, and which parts are dropped on the way out. */
  lemma CanonicalForms(text: string, mediaType: string, data: string, url: string, part: Part)
    ensures InPart(Text(text)) == Part("text", text, "")
    ensures data != "" ==>
      InPart(Image("base64", mediaType, data, url)) == Part("image_url", "", "data:" + mediaType + ";base64," + data)
    ensures InPart(Image("url", mediaType, data, url)) == Part("image_url", "", url)
    ensures part.Part? && part.kind != "text" && part.kind != "" && part.kind != "image_url" ==> OutPart(part) == []
    ensures part.Part? && part.kind == "" && part.text != "" ==> OutPart(part) == [Text(part.text)]
  {
    hide ParseDataURL;
    assert "url"[0] != "base64"[0];
  }
}

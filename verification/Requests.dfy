/** A request's way from an Anthropic consumer to an Anthropic backend through the canonical form:
    inbound (internal/server/anthropic.go) and then outbound (internal/backend/anthropic.go). JSON
    carries the values between the two unchanged. */
module Requests {
  import opened Bytes

  // ----- the two forms -----

  /** An Anthropic content block; absent fields are "". `Other` is any block that is neither text nor
      an image, with what the outbound side would read from it. */
  datatype Block =
    | Text(text: string)
    | Image(kind: string, mediaType: string, data: string, url: string)
    | SourcelessImage
    | Other(part: Part)

  /** A canonical content part as the outbound side decodes it. */
  datatype Part = Part(kind: string, text: string, url: string) | Unreadable

  /** Message content: a string, a list, or anything else. */
  datatype Content<T> = Str(s: string) | List(items: seq<T>) | Neither

  datatype Message<T> = Message(role: string, content: Content<T>)

  datatype System = NoSystem | SystemText(s: string) | SystemBlocks(texts: seq<string>)

  datatype AnthropicRequest = AnthropicRequest(system: System, messages: seq<Message<Block>>)

  type Canonical = seq<Message<Part>>

  // ----- inbound -----

  const BASE64: string := ";base64"

  function DataURL(mediaType: string, data: string): string {
    "data:" + mediaType + BASE64 + "," + data
  }

  function InPart(b: Block): Part {
    match b
    case Text(text) => Part("text", text, "")
    case Image(kind, mediaType, data, url) =>
      Part("image_url", "", if kind == "base64" && data != "" then DataURL(mediaType, data) else url)
    case SourcelessImage => Part("text", "", "")
    case Other(part) => part
  }

  function InParts(blocks: seq<Block>): seq<Part> {
    seq(|blocks|, k requires 0 <= k < |blocks| => InPart(blocks[k]))
  }

  function InContent(c: Content<Block>): Content<Part> {
    match c
    case Str(s) => Str(s)
    case List(blocks) => List(InParts(blocks))
    case Neither => Str("")
  }

  /** `next` behind `text`, with a separator between two non-empty ones. */
  function Joined(text: string, separator: string, next: string): string {
    if text == "" then next else text + separator + next
  }

  /** The non-empty texts, one a line. */
  function FlatLines(texts: seq<string>): string {
    if texts == [] then ""
    else
      var init, last := FlatLines(texts[..|texts| - 1]), texts[|texts| - 1];
      if last == "" then init else Joined(init, "\n", last)
  }

  function FlatSystem(s: System): string {
    match s
    case NoSystem => ""
    case SystemText(t) => t
    case SystemBlocks(texts) => FlatLines(texts)
  }

  function InMessage(m: Message<Block>): Message<Part> {
    Message(m.role, InContent(m.content))
  }

  function InMessages(ms: seq<Message<Block>>): seq<Message<Part>> {
    seq(|ms|, k requires 0 <= k < |ms| => InMessage(ms[k]))
  }

  function SystemMessage(text: string): seq<Message<Part>> {
    if text == "" then [] else [Message("system", Str(text))]
  }

  function Inbound(r: AnthropicRequest): Canonical {
    SystemMessage(FlatSystem(r.system)) + InMessages(r.messages)
  }

  method AnthropicSystemText(s: System) returns (text: string)
    ensures text == FlatSystem(s)
  {
    match s
    case NoSystem => text := "";
    case SystemText(t) => text := t;
    case SystemBlocks(texts) =>
      text := "";
      for k := 0 to |texts|
        invariant text == FlatLines(texts[..k])
      {
        assert texts[..k + 1][..k] == texts[..k];
        if texts[k] == "" {
          continue;
        }
        if |text| > 0 {
          text := text + "\n";
        }
        text := text + texts[k];
      }
      assert texts[..|texts|] == texts;
  }

  method ParseAnthropicRequest(r: AnthropicRequest) returns (out: Canonical)
    ensures out == Inbound(r)
  {
    hide FlatLines;
    out := [];
    var text := AnthropicSystemText(r.system);
    if text != "" {
      out := out + [Message("system", Str(text))];
    }
    for k := 0 to |r.messages|
      invariant out == SystemMessage(text) + InMessages(r.messages[..k])
    {
      assert InMessages(r.messages[..k + 1]) == InMessages(r.messages[..k]) + [InMessage(r.messages[k])];
      var content := TranslateAnthropicContent(r.messages[k].content);
      out := out + [Message(r.messages[k].role, content)];
    }
    assert r.messages[..|r.messages|] == r.messages;
  }

  method TranslateAnthropicContent(c: Content<Block>) returns (out: Content<Part>)
    ensures out == InContent(c)
  {
    match c
    case Str(s) => out := Str(s);
    case Neither => out := Str("");
    case List(blocks) =>
      var parts := [];
      for k := 0 to |blocks|
        invariant parts == InParts(blocks[..k])
      {
        parts := parts + [InPart(blocks[k])];
      }
      assert blocks[..|blocks|] == blocks;
      out := List(parts);
  }

  // ----- outbound -----

  datatype DataURLParts = NotData | Data(mediaType: string, data: string)

  function TrimSuffix(s: string, suffix: string): string {
    if |suffix| <= |s| && s[|s| - |suffix|..] == suffix then s[..|s| - |suffix|] else s
  }

  function ParseDataURL(s: string): DataURLParts {
    if !HasPrefix(s, "data:") then NotData
    else
      var rest := s[5..];
      var comma := IndexByte(rest, ',');
      if comma < 0 then NotData
      else
        var meta := TrimSuffix(rest[..comma], BASE64);
        Data(if meta == "" then "application/octet-stream" else meta, rest[comma + 1..])
  }

  /** What one part becomes: a block, or nothing. */
  function OutPart(p: Part): seq<Block> {
    if p == Unreadable then []
    else if p.kind == "text" || p.kind == "" then
      if p.text != "" then [Text(p.text)] else []
    else if p.kind == "image_url" then
      if HasPrefix(p.url, "data:") then
        match ParseDataURL(p.url)
        case NotData => []
        case Data(mediaType, data) => [Image("base64", mediaType, data, "")]
      else if p.url != "" then [Image("url", "", "", p.url)]
      else []
    else []
  }

  function OutParts(parts: seq<Part>): seq<Block> {
    if parts == [] then [] else OutParts(parts[..|parts| - 1]) + OutPart(parts[|parts| - 1])
  }

  function OutContent(c: Content<Part>): Content<Block> {
    match c
    case Str(s) => Str(s)
    case List(parts) => if OutParts(parts) == [] then Str("") else List(OutParts(parts))
    case Neither => Str("")
  }

  function PartText(p: Part): string {
    if p == Unreadable then "" else p.text
  }

  function PartTexts(parts: seq<Part>): seq<string> {
    seq(|parts|, k requires 0 <= k < |parts| => PartText(parts[k]))
  }

  /** The plain-text view of content. */
  function TextOf(c: Content<Part>): string {
    match c
    case Str(s) => s
    case List(parts) => FlatLines(PartTexts(parts))
    case Neither => ""
  }

  function OutSystem(ms: Canonical): string {
    if ms == [] then ""
    else
      var init, m := OutSystem(ms[..|ms| - 1]), ms[|ms| - 1];
      if m.role == "system" then Joined(init, "\n\n", TextOf(m.content)) else init
  }

  function OutMessages(ms: Canonical): seq<Message<Block>> {
    if ms == [] then []
    else
      var init, m := OutMessages(ms[..|ms| - 1]), ms[|ms| - 1];
      if m.role == "system" then init else init + [Message(m.role, OutContent(m.content))]
  }

  method OpenAIToAnthropicRequest(ms: Canonical) returns (system: string, messages: seq<Message<Block>>)
    ensures system == OutSystem(ms) && messages == OutMessages(ms)
  {
    hide TextOf, OutContent;
    system, messages := "", [];
    for k := 0 to |ms|
      invariant system == OutSystem(ms[..k]) && messages == OutMessages(ms[..k])
    {
      assert ms[..k + 1][..k] == ms[..k];
      var m := ms[k];
      if m.role == "system" {
        if |system| > 0 {
          system := system + "\n\n";
        }
        system := system + TextOf(m.content);
        continue;
      }
      var content := AnthropicContent(m.content);
      messages := messages + [Message(m.role, content)];
    }
    assert ms[..|ms|] == ms;
  }

  method AnthropicContent(c: Content<Part>) returns (out: Content<Block>)
    ensures out == OutContent(c)
  {
    if c.Str? {
      return Str(c.s);
    }
    if c.Neither? {
      return Str("");
    }
    hide ParseDataURL;
    var blocks := [];
    for k := 0 to |c.items|
      invariant blocks == OutParts(c.items[..k])
    {
      assert c.items[..k + 1][..k] == c.items[..k];
      blocks := blocks + OutPart(c.items[k]);
    }
    assert c.items[..|c.items|] == c.items;
    out := if blocks == [] then Str("") else List(blocks);
  }
}

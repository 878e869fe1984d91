/** The contract assumed of the JSON library can be met: a codec that is faithful. */
module CodecWitness {
  import opened Wrappers
  import opened Bytes
  import opened Sse
  import opened Codec

  /** Two bytes a character, none of them a newline, and a closing dot. */
  function Quote(s: string): (q: Bytes)
    ensures Free(q, '\n') && q != []
  {
    if s == [] then "."
    else (if s[0] == '\n' then "-n" else ['+', s[0]]) + Quote(s[1..])
  }

  function Unquote(b: Bytes): (string, Bytes) {
    if |b| < 2 || b[0] == '.' then ([], if b == [] then [] else b[1..])
    else
      var (s, rest) := Unquote(b[2..]);
      ([if b[0] == '-' then '\n' else b[1]] + s, rest)
  }

  lemma {:induction false} QuoteRoundTrip(s: string, rest: Bytes)
    ensures Unquote(Quote(s) + rest) == (s, rest)
  {
    if s == [] {
      assert ("." + rest)[1..] == rest;
    } else {
      var code := if s[0] == '\n' then "-n" else ['+', s[0]];
      var b := Quote(s) + rest;
      assert b == code + (Quote(s[1..]) + rest);
      assert b[2..] == Quote(s[1..]) + rest;
      QuoteRoundTrip(s[1..], rest);
      assert [s[0]] + s[1..] == s;
    }
  }

  function Flag(finish: Option<string>): Bytes {
    if finish == None then "0" else "1"
  }

  function Value(finish: Option<string>): string {
    if finish == None then "" else finish.value
  }

  function Encode(c: Chunk): Bytes {
    var v := ViewOf(c);
    "{" + (Quote(v.model) + (Quote(v.choice.value.content) + (Flag(c.finish) + (Quote(Value(c.finish)) + "}"))))
  }

  function Decode(b: Bytes): Option<ChunkView> {
    if b == [] then None
    else
      var (model, b1) := Unquote(b[1..]);
      var (content, b2) := Unquote(b1);
      if b2 == [] then None
      else
        var (finish, _) := Unquote(b2[1..]);
        Some(ChunkView(model, Some(Choice(content, if b2[0] == '0' then None else Some(finish))), None))
  }

  lemma EncodeRoundTrip(c: Chunk)
    ensures Decode(Encode(c)) == Some(ViewOf(c))
  {
    hide Unquote, Quote;
    var v := ViewOf(c);
    var last := Quote(Value(c.finish)) + "}";
    var tail := Flag(c.finish) + last;
    var b1 := Quote(v.choice.value.content) + tail;
    QuoteRoundTrip(v.model, b1);
    QuoteRoundTrip(v.choice.value.content, tail);
    QuoteRoundTrip(Value(c.finish), "}");
    assert Encode(c)[1..] == Quote(v.model) + b1;
    assert tail[1..] == last;
  }

  lemma EncodeIsValid(c: Chunk)
    ensures ValidPayload(Encode(c))
  {
    hide Unquote, Quote;
    var b := Encode(c);
    assert b[0] == '{' && b[|b| - 1] == '}';
    assert SpaceAtStart(b) == 0 && SpaceAtEnd(b) == 0;
  }

  const WITNESS: Codec := Codec(
    _ => None, c => Encode(c), b => Decode(b), _ => [],
    _ => NO_USAGE, _ => NO_USAGE, _ => None, b => b, b => b)

  lemma SomeCodecIsFaithful()
    ensures Faithful(WITNESS)
  {
    forall c: Chunk
      ensures ValidPayload(WITNESS.encodeChunk(c))
      ensures WITNESS.decodeChunk(WITNESS.encodeChunk(c)) == Some(ViewOf(c))
    {
      EncodeIsValid(c);
      EncodeRoundTrip(c);
    }
  }
}

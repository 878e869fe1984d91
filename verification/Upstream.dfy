/** The outbound side: the request context, a backend client with its in-flight gauge, and the two
    kinds of response body (internal/backend/client.go, internal/backend/anthropic.go). What the
    upstream does is an argument of every call, an `Answer`. */
module Upstream {
  import opened Wrappers
  import opened Bytes
  import opened Codec
  import E = EventStream
  import Sse

  // ----- cancellation: it may arrive before any check, and then stays -----

  datatype Ctx = Ctx(checks: nat, cancelAt: Option<nat>) {
    predicate Cancelled() {
      cancelAt.Some? && cancelAt.value <= checks
    }

    function Checked(): Ctx {
      this.(checks := checks + 1)
    }

    predicate Live() {
      cancelAt == None
    }
  }

  class Context {
    var checks: nat
    const cancelAt: Option<nat>

    function State(): Ctx
      reads this
    {
      Ctx(checks, cancelAt)
    }

    constructor (cancelAt: Option<nat>)
      ensures State() == Ctx(0, cancelAt)
    {
      checks, this.cancelAt := 0, cancelAt;
    }

    method Err() returns (cancelled: bool)
      modifies this
      ensures cancelled == old(State()).Cancelled()
      ensures State() == old(State()).Checked()
    {
      cancelled := cancelAt.Some? && cancelAt.value <= checks;
      checks := checks + 1;
    }
  }

  // ----- what an upstream does, and what a caller of Chat receives -----

  type Piece = b: Bytes | b != [] witness "x"

  /** A status code net/http relays. */
  type Status = s: int | 100 <= s <= 999 witness 200

  type Protocol = string
  const ANTHROPIC: Protocol := "anthropic"

  /** A transport error, or a reply whose body arrives in pieces and ends cleanly or, when `broken`,
      with a read error. */
  datatype Answer =
    | Unreachable
    | Answered(status: Status, contentType: string, pieces: seq<Piece>, broken: bool)

  datatype BodyValue =
    | Plain(pieces: seq<Piece>, broken: bool)
    | Translated(out: Bytes, src: Bytes, finished: bool, who: E.Ident)
  {
    /** Everything still to be read. */
    function Rest(codec: Codec): Bytes {
      match this
      case Plain(pieces, _) => Concat(pieces)
      case Translated(out, src, finished, who) => if finished then out else out + E.Output(codec, src, who)
    }

    /** Whether reading ends with an error; the translating reader turns one into a terminator. */
    predicate Broken() {
      Plain? && broken
    }
  }

  datatype Reply = Failed | Reply(status: Status, contentType: string, body: BodyValue)

  function Whole(b: Bytes): seq<Piece> {
    if b == [] then [] else [b]
  }

  function ReceivePlain(a: Answer): Reply {
    match a
    case Unreachable => Failed
    case Answered(status, contentType, pieces, broken) => Reply(status, contentType, Plain(pieces, broken))
  }

  function ReceiveAnthropic(codec: Codec, a: Answer, stream: bool): Reply {
    match a
    case Unreachable => Failed
    case Answered(status, contentType, pieces, broken) =>
      if status != 200 then ReceivePlain(a)
      else if stream then
        Reply(200, "text/event-stream", Translated([], Concat(pieces), false, E.UNNAMED))
      else if broken then Failed
      else
        match codec.unaryToOpenAI(Concat(pieces))
        case None => Failed
        case Some(oai) => Reply(200, "application/json", Plain(Whole(oai), false))
  }

  function Receive(codec: Codec, protocol: Protocol, native: bool, a: Answer, stream: bool): Reply {
    if !native && protocol == ANTHROPIC then ReceiveAnthropic(codec, a, stream) else ReceivePlain(a)
  }

  // ----- the backend client -----

  class Client {
    const name: string
    const protocol: Protocol
    var inFlight: int

    constructor (name: string, protocol: Protocol)
      ensures this.name == name && this.protocol == protocol && inFlight == 0
    {
      this.name, this.protocol, inFlight := name, protocol, 0;
    }

    /** The deferred clean-up: releases the slot while this call still owns it. */
    method Cleanup(armed: bool)
      modifies this`inFlight
      ensures inFlight == old(inFlight) - (if armed then 1 else 0)
    {
      if armed {
        inFlight := inFlight - 1;
      }
    }

    method Chat(codec: Codec, a: Answer, stream: bool) returns (resp: Option<Response>)
      modifies this`inFlight
      ensures Handed(resp, Receive(codec, protocol, false, a, stream), codec)
      ensures resp.Some? ==> fresh(resp.value.body.Footprint())
      ensures inFlight == old(inFlight) + (if resp.Some? then 1 else 0)
    {
      if protocol == ANTHROPIC {
        resp := ChatAnthropic(codec, a, stream);
      } else {
        resp := ChatNative(codec, a);
      }
    }

    /** chatOpenAI and ChatNative: the reply is handed on as it is. */
    method ChatNative(codec: Codec, a: Answer) returns (resp: Option<Response>)
      modifies this`inFlight
      ensures Handed(resp, ReceivePlain(a), codec)
      ensures resp.Some? ==> resp.value.body.Guarded? && fresh(resp.value.body.Footprint())
      ensures inFlight == old(inFlight) + (if resp.Some? then 1 else 0)
    {
      var armed := true;
      inFlight := inFlight + 1;
      if a.Unreachable? {
        Cleanup(armed);
        return None;
      }
      armed := false;
      var g := new GuardedBody(this, a.pieces, a.broken);
      resp := Some(Response(a.status, a.contentType, Guarded(g)));
      Cleanup(armed);
    }

    method ChatAnthropic(codec: Codec, a: Answer, stream: bool) returns (resp: Option<Response>)
      modifies this`inFlight
      ensures Handed(resp, ReceiveAnthropic(codec, a, stream), codec)
      ensures resp.Some? ==> fresh(resp.value.body.Footprint())
      ensures inFlight == old(inFlight) + (if resp.Some? then 1 else 0)
    {
      var armed := true;
      inFlight := inFlight + 1;
      if a.Unreachable? {
        Cleanup(armed);
        return None;
      }
      if a.status != 200 {
        armed := false;
        var g := new GuardedBody(this, a.pieces, a.broken);
        resp := Some(Response(a.status, a.contentType, Guarded(g)));
        Cleanup(armed);
        return;
      }
      if stream {
        var sr := new StreamReader(this, codec, Concat(a.pieces));
        armed := false;
        resp := Some(Response(200, "text/event-stream", Reader(sr)));
        Cleanup(armed);
        return;
      }
      if a.broken {
        Cleanup(armed);
        return None;
      }
      var oai := codec.unaryToOpenAI(Concat(a.pieces));
      if oai.None? {
        Cleanup(armed);
        return None;
      }
      armed := false;
      var g := new GuardedBody(this, Whole(oai.value), false);
      resp := Some(Response(200, "application/json", Guarded(g)));
      Cleanup(armed);
    }

    /** The response matches the reply, and its body holds a slot of this client. */
    ghost predicate Handed(resp: Option<Response>, reply: Reply, codec: Codec)
      reads if resp.Some? then resp.value.body.Footprint() else {}
    {
      match resp
      case None => reply == Failed
      case Some(r) =>
        && reply == Reply(r.status, r.contentType, r.body.State())
        && r.body.Owner() == this && !r.body.Released()
        && (r.body.Reader? ==> r.body.r.codec == codec)
    }
  }

  // ----- response bodies -----

  datatype Response = Response(status: Status, contentType: string, body: Body)

  class GuardedBody {
    const client: Client
    const broken: bool
    var pieces: seq<Piece>
    var closed: bool
    var released: bool
    var cancelled: bool

    constructor (client: Client, pieces: seq<Piece>, broken: bool)
      ensures this.client == client && this.pieces == pieces && this.broken == broken && !released
    {
      this.client, this.pieces, this.broken := client, pieces, broken;
      closed, released, cancelled := false, false, false;
    }

    /** The next read into `room` bytes; nothing once the body is exhausted. */
    method Read(room: nat) returns (data: Bytes)
      requires room > 0
      modifies this`pieces
      ensures (data, pieces) == NextRead(old(pieces), room)
    {
      if pieces == [] {
        return [];
      }
      if |pieces[0]| <= room {
        data, pieces := pieces[0], pieces[1..];
      } else {
        data, pieces := pieces[0][..room], [pieces[0][room..]] + pieces[1..];
      }
    }

    /** Closes the upstream body; the first time it also cancels the call and gives the slot back. */
    method Close()
      modifies this`closed, this`released, this`cancelled, client`inFlight
      ensures closed && released && cancelled == (old(cancelled) || !old(released))
      ensures client.inFlight == old(client.inFlight) - (if old(released) then 0 else 1)
    {
      closed := true;
      if !released {
        released, cancelled := true, true;
        client.inFlight := client.inFlight - 1;
      }
    }
  }

  function NextRead(pieces: seq<Piece>, room: nat): (r: (Bytes, seq<Piece>))
    requires room > 0
    ensures |r.0| <= room && (r.0 == [] <==> pieces == [])
  {
    if pieces == [] then ([], [])
    else if |pieces[0]| <= room then (pieces[0], pieces[1..])
    else (pieces[0][..room], [pieces[0][room..]] + pieces[1..])
  }

  lemma NextReadKeepsBytes(pieces: seq<Piece>, room: nat)
    requires room > 0
    ensures Concat(pieces) == NextRead(pieces, room).0 + Concat(NextRead(pieces, room).1)
  {
    if pieces != [] && |pieces[0]| > room {
      var r := [pieces[0][room..]] + pieces[1..];
      assert r[1..] == pieces[1..];
      assert Concat(r) == pieces[0][room..] + Concat(pieces[1..]);
      assert pieces[0] == pieces[0][..room] + pieces[0][room..];
    }
  }

  /** The reader that translates an Anthropic event stream while it is read. */
  class StreamReader {
    const client: Client
    const codec: Codec
    var src: Bytes
    var out: Bytes
    var id: string
    var model: string
    var finished: bool
    var closed: bool
    var released: bool
    var cancelled: bool

    function State(): BodyValue
      reads this
    {
      Translated(out, src, finished, E.Ident(id, model))
    }

    /** What this reader will still deliver. */
    function Ahead(): Bytes
      reads this
    {
      State().Rest(codec)
    }

    constructor (client: Client, codec: Codec, src: Bytes)
      ensures this.client == client && this.codec == codec && !released
      ensures State() == Translated([], src, false, E.UNNAMED)
    {
      this.client, this.codec, this.src := client, codec, src;
      out, id, model, finished := [], "", "anthropic", false;
      closed, released, cancelled := false, false, false;
    }

    /** Delivers a non-empty piece of what is ahead, or nothing when nothing is. Pumping ends because
        every event uses up upstream bytes. */
    method Read(room: nat) returns (data: Bytes)
      requires room > 0
      modifies this`src, this`out, this`id, this`model, this`finished
      ensures old(Ahead()) == data + Ahead()
      ensures |data| <= room && (data == [] ==> Ahead() == [])
    {
      hide E.Output;
      while out == [] && !finished
        invariant Ahead() == old(Ahead())
        decreases !finished, |src|
      {
        var ok := PumpOne();
        if !ok {
          EmitDone();
        }
      }
      if out == [] {
        return [];
      }
      data := Take(room);
    }

    /** Any run of reads delivers what was ahead, in order, at least a byte a read while there is one. */
    method ReadInto(rooms: seq<nat>) returns (total: Bytes)
      requires forall k :: 0 <= k < |rooms| ==> rooms[k] > 0
      modifies this`src, this`out, this`id, this`model, this`finished
      ensures old(Ahead()) == total + Ahead()
      ensures |total| >= |rooms| || Ahead() == []
    {
      total := [];
      for k := 0 to |rooms|
        invariant old(Ahead()) == total + Ahead()
        invariant |total| >= k || Ahead() == []
      {
        var data := Read(rooms[k]);
        assert total + (data + Ahead()) == (total + data) + Ahead();
        total := total + data;
      }
    }

    /** bytes.Buffer.Read. */
    method Take(room: nat) returns (data: Bytes)
      requires room > 0 && out != []
      modifies this`out
      ensures old(out) == data + out && 0 < |data| <= room
      ensures old(Ahead()) == data + Ahead()
    {
      hide E.Output;
      var n := if |out| <= room then |out| else room;
      data, out := out[..n], out[n..];
      assert old(out) == data + out;
    }

    /** One event: its chunks move from upstream to the buffer. */
    method PumpOne() returns (ok: bool)
      requires !finished
      modifies this`src, this`out, this`id, this`model, this`finished
      ensures ok ==> Ahead() == old(Ahead()) && |src| < old(|src|)
      ensures !ok ==> !finished && old(Ahead()) == out + Sse.DONE_RECORD
    {
      hide E.Pump, E.Output, E.Queued, E.Renamed;
      ghost var src0, who := src, E.Ident(id, model);
      E.OutputStep(codec, src0, who);
      var event := ReadEvent();
      if event.None? {
        return false;
      }
      if event.value != [] {
        HandleEvent(event.value);
      }
      return true;
    }

    /** The data of the next complete event, [] when it has none. */
    method ReadEvent() returns (event: Option<Bytes>)
      modifies this`src
      ensures match E.Pump(old(src), [])
        case Ended => event == None
        case Event(data, rest) => event == Some(data) && src == rest
    {
      ghost var src0 := src;
      var data: Bytes := [];
      while true
        invariant E.Pump(src, data) == E.Pump(src0, [])
        decreases |src|
      {
        var i := IndexByte(src, '\n');
        if i < 0 {
          src := [];
          return None;
        }
        var line := TrimRight(src[..i + 1], {'\r', '\n'});
        src := src[i + 1..];
        if line == "" {
          return Some(data);
        }
        if HasPrefix(line, "data:") {
          data := data + TrimSpace(line[5..]);
        }
      }
    }

    method HandleEvent(data: Bytes)
      requires !finished
      modifies this`out, this`id, this`model, this`finished
      ensures var ev := codec.decodeEvent(data);
        if ev == None then out == old(out) && !finished && id == old(id) && model == old(model)
        else if ev.value.kind == "message_stop" then out == old(out) + Sse.DONE_RECORD && finished
        else
          && !finished
          && E.Ident(id, model) == E.Renamed(old(E.Ident(id, model)), ev.value)
          && out == old(out) + E.Queued(codec, E.Ident(id, model), ev.value)
    {
      var decoded := codec.decodeEvent(data);
      if decoded.None? {
        return;
      }
      var ev := decoded.value;
      if ev.kind == "message_start" {
        if ev.messageID != "" {
          id := ev.messageID;
        }
        if ev.messageModel != "" {
          model := ev.messageModel;
        }
        AddChunk(Role, None);
      } else if ev.kind == "content_block_delta" {
        if ev.deltaKind == "text_delta" {
          if ev.text != "" {
            AddChunk(Content(ev.text), None);
          }
        } else if ev.deltaKind == "thinking_delta" {
          if ev.thinking != "" {
            AddChunk(Reasoning(ev.thinking), None);
          }
        }
      } else if ev.kind == "message_delta" {
        if ev.stopReason != "" {
          AddChunk(NoDelta, StopToFinish(ev.stopReason));
        }
      } else if ev.kind == "message_stop" {
        EmitDone();
      }
    }

    method AddChunk(delta: Delta, finish: Option<string>)
      modifies this`out
      ensures out == old(out) + E.Rendered(codec, [Chunk(id, model, delta, finish)])
    {
      var b := codec.encodeChunk(Chunk(id, model, delta, finish));
      ghost var ps := E.Encoded(codec, [Chunk(id, model, delta, finish)]);
      assert ps == [b] && ps[1..] == [];
      assert Sse.Render(ps) == Sse.Frame(b) + Sse.Render(ps[1..]);
      out := out + "data: ";
      out := out + b;
      out := out + "\n\n";
      assert out == old(out) + Sse.Frame(b);
    }

    method EmitDone()
      modifies this`out, this`finished
      ensures finished
      ensures out == if old(finished) then old(out) else old(out) + Sse.DONE_RECORD
    {
      if finished {
        return;
      }
      out := out + "data: [DONE]\n\n";
      finished := true;
    }

    /** Closes the upstream body; the first time it also cancels the call and gives the slot back. */
    method Close()
      modifies this`closed, this`released, this`cancelled, client`inFlight
      ensures closed && released && cancelled == (old(cancelled) || !old(released))
      ensures client.inFlight == old(client.inFlight) - (if old(released) then 0 else 1)
    {
      closed := true;
      if !released {
        released, cancelled := true, true;
        client.inFlight := client.inFlight - 1;
      }
    }
  }

  /** The io.ReadCloser handed to the router. */
  datatype Body = Guarded(g: GuardedBody) | Reader(r: StreamReader) {
    ghost function Footprint(): set<object> {
      match this case Guarded(g) => {g} case Reader(r) => {r}
    }

    function Owner(): Client {
      match this case Guarded(g) => g.client case Reader(r) => r.client
    }

    function Released(): bool
      reads Footprint()
    {
      match this case Guarded(g) => g.released case Reader(r) => r.released
    }

    function State(): BodyValue
      reads Footprint()
    {
      match this case Guarded(g) => Plain(g.pieces, g.broken) case Reader(r) => r.State()
    }

    method Read(codec: Codec, room: nat) returns (data: Bytes)
      requires room > 0 && (Reader? ==> r.codec == codec)
      modifies Footprint()
      ensures old(State()).Rest(codec) == data + State().Rest(codec)
      ensures |data| <= room && (data == [] ==> State().Rest(codec) == [])
      ensures State().Broken() == old(State()).Broken() && Released() == old(Released())
    {
      match this
      case Guarded(g) =>
        NextReadKeepsBytes(g.pieces, room);
        data := g.Read(room);
      case Reader(r) =>
        data := r.Read(room);
    }

    method Close()
      modifies Footprint(), Owner()`inFlight
      ensures Released()
      ensures Owner().inFlight == old(Owner().inFlight) - (if old(Released()) then 0 else 1)
    {
      match this
      case Guarded(g) => g.Close();
      case Reader(r) => r.Close();
    }

    /** io.ReadAll. */
    method ReadAll(codec: Codec) returns (data: Bytes, ok: bool)
      requires Reader? ==> r.codec == codec
      modifies Footprint()
      ensures data == old(State()).Rest(codec) && ok == !old(State()).Broken()
      ensures Released() == old(Released())
    {
      data := [];
      while true
        invariant data + State().Rest(codec) == old(State()).Rest(codec)
        invariant State().Broken() == old(State()).Broken() && Released() == old(Released())
        decreases |State().Rest(codec)|
      {
        var piece := Read(codec, 512);
        data := data + piece;
        if piece == [] {
          break;
        }
      }
      ok := !State().Broken();
    }
  }
}

/** The client side of one request: an http.ResponseWriter. A write may fail at any byte; `fuse` is
    how many more bytes the connection still takes. */
module Wire {
  import opened Bytes

  type Headers = map<string, string>

  datatype Head = Head(status: int, headers: Headers)

  /** `heads` lists every WriteHeader call; net/http sends the first and ignores the others. */
  datatype Wire = Wire(headers: Headers, heads: seq<Head>, body: Bytes, fuse: nat) {
    function SetHeader(key: string, value: string): Wire {
      this.(headers := headers[key := value])
    }

    function WriteHeader(status: int): Wire {
      this.(heads := heads + [Head(status, headers)])
    }

    function Begun(): Wire {
      if heads == [] then WriteHeader(200) else this
    }

    function Put(p: Bytes): (Wire, bool) {
      var w := Begun();
      if |p| <= fuse then (w.(body := body + p, fuse := fuse - |p|), true)
      else (w.(body := body + p[..fuse], fuse := 0), false)
    }
  }

  const FRESH_WIRE: Wire := Wire(map[], [], [], 0)

  /** Writing in pieces and stopping at the first failure is one cut write. */
  lemma PutPieces(w: Wire, p: Bytes, q: Bytes)
    ensures w.Put(p).1 ==> w.Put(p).0.Put(q) == w.Put(p + q)
    ensures !w.Put(p).1 ==> w.Put(p + q) == w.Put(p)
  {
    if w.Put(p).1 {
      assert w.body + p + q == w.body + (p + q);
      if |p + q| > w.fuse {
        assert w.body + p + q[..w.fuse - |p|] == w.body + (p + q)[..w.fuse];
      }
    } else {
      assert (p + q)[..w.fuse] == p[..w.fuse];
    }
  }

  class ResponseWriter {
    var headers: Headers
    var heads: seq<Head>
    var body: Bytes
    var fuse: nat

    function State(): Wire
      reads this
    {
      Wire(headers, heads, body, fuse)
    }

    constructor (fuse: nat)
      ensures State() == FRESH_WIRE.(fuse := fuse)
    {
      headers, heads, body := map[], [], [];
      this.fuse := fuse;
    }

    method SetHeader(key: string, value: string)
      modifies this`headers
      ensures State() == old(State()).SetHeader(key, value)
    {
      headers := headers[key := value];
    }

    method SetHeaders(more: Headers)
      modifies this`headers
      ensures State() == old(State()).(headers := old(headers) + more)
    {
      headers := headers + more;
    }

    method WriteHeader(status: int)
      modifies this`heads
      ensures State() == old(State()).WriteHeader(status)
    {
      heads := heads + [Head(status, headers)];
    }

    method Write(p: Bytes) returns (ok: bool)
      modifies this`heads, this`body, this`fuse
      ensures (State(), ok) == old(State()).Put(p)
    {
      if heads == [] {
        WriteHeader(200);
      }
      ok := |p| <= fuse;
      var n := if ok then |p| else fuse;
      assert p[..|p|] == p;
      body, fuse := body + p[..n], fuse - n;
    }
  }
}
